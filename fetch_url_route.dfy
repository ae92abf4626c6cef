/**
 * The link-fetching handler (src/app/api/fetch-url/route.ts): the page at a
 * URL is downloaded and its main text picked by trying a fixed list of
 * content containers, falling back to the whole body. The HTTP client and
 * the HTML parser are not modelled: the downloaded page is given as the text
 * of its title, the text of each container a selector finds, and the text
 * of the body.
 */
module FetchUrlRoute {
  import opened Wrappers
  import opened Strings
  import opened Api

  /** The selectors tried for the article text, in order. */
  const Selectors: seq<string> := ["article", ".post-content", ".entry-content", ".content", ".article-content", "#content", "main"]

  /** A container text longer than this many characters ends the search. */
  const LongEnough := 100
  /** Container text shorter than this is replaced by the body text. */
  const TooShort := 50

  /**
   * A downloaded and parsed page: the text of its title, the text a selector
   * finds (scripts and styles removed; `None` when nothing matches), and the
   * text of the body once scripts, styles and navigation are removed.
   */
  datatype Page = Page(title: string, select: string -> Option<string>, body: string)

  /** What the request gave: a page, or a failure thrown by the HTTP client or anything else. */
  datatype Fetch = Fetched(page: Page) | Failed(error: FetchError)

  /** An HTTP-client error with its message and the status of the response if there was one, or any other error. */
  datatype FetchError = ClientError(message: string, status: Option<int>) | OtherError

  datatype FetchReply = FetchReply(title: string, content: string, url: string)

  /** What each selector finds on the page, in selector order. */
  function Found(page: Page): (r: seq<Option<string>>)
    ensures |r| == |Selectors| && forall i | 0 <= i < |Selectors| :: r[i] == page.select(Selectors[i])
  {
    seq(|Selectors|, i requires 0 <= i < |Selectors| => page.select(Selectors[i]))
  }

  /**
   * The container search from position 0 of `found` on, `current` being the
   * text kept so far: each match replaces the kept text with its trimmed
   * text, and a text longer than 100 ends the search.
   */
  function Pick(found: seq<Option<string>>, current: string): string
    decreases |found|
  {
    if found == [] then current
    else match found[0]
      case None => Pick(found[1..], current)
      case Some(t) =>
        var c := Trim(t);
        if |c| > LongEnough then c else Pick(found[1..], c)
  }

  /** A match whose trimmed text is longer than 100. */
  predicate Long(o: Option<string>) {
    o.Some? && |Trim(o.value)| > LongEnough
  }

  /** The last match, if any. */
  function LastFound(found: seq<Option<string>>): Option<string>
    decreases |found|
  {
    if found == [] then None
    else if found[|found| - 1].Some? then found[|found| - 1]
    else LastFound(found[..|found| - 1])
  }

  /** The trimmed text of the last match, or `current` when nothing matches. */
  function LastMatched(found: seq<Option<string>>, current: string): string {
    match LastFound(found)
    case None => current
    case Some(t) => Trim(t)
  }

  /** The first long match wins, whatever follows it. */
  lemma {:induction false} PickFirstLong(found: seq<Option<string>>, current: string, k: nat)
    requires k < |found| && Long(found[k])
    requires forall j | 0 <= j < k :: !Long(found[j])
    ensures Pick(found, current) == Trim(found[k].value)
    decreases k
  {
    if k > 0 {
      assert !Long(found[0]);
      var next := if found[0].Some? then Trim(found[0].value) else current;
      PickFirstLong(found[1..], next, k - 1);
    }
  }

  /** Without a long match, the last match's text is kept. */
  lemma {:induction false} PickNoLong(found: seq<Option<string>>, current: string)
    requires forall j | 0 <= j < |found| :: !Long(found[j])
    ensures Pick(found, current) == LastMatched(found, current)
    decreases |found|
  {
    if found != [] {
      var next := if found[0].Some? then Trim(found[0].value) else current;
      PickNoLong(found[1..], next);
      LastFoundTail(found);
    }
  }

  /** The last match of a sequence is the last match of its tail, or its head when the tail has none. */
  lemma {:induction false} LastFoundTail(found: seq<Option<string>>)
    requires found != []
    ensures LastFound(found) == if LastFound(found[1..]).Some? then LastFound(found[1..]) else found[0]
    decreases |found|
  {
    if |found| > 1 && found[|found| - 1].None? {
      var init := found[..|found| - 1];
      assert init[1..] == found[1..][..|found[1..]| - 1];
      assert init[0] == found[0];
      LastFoundTail(init);
    }
  }

  /** The selector loop: each match's trimmed text replaces the content, and a long one ends the loop. */
  method ScanSelectors(page: Page) returns (content: string)
    ensures content == Pick(Found(page), "")
  {
    content := Scan(Found(page));
  }

  /** The loop over what the selectors found, in order. */
  method Scan(found: seq<Option<string>>) returns (content: string)
    ensures content == Pick(found, "")
  {
    content := "";
    var i := 0;
    while i < |found|
      invariant 0 <= i <= |found|
      invariant Pick(found, "") == Pick(found[i..], content)
    {
      var element := found[i];
      assert found[i..][0] == element;
      assert found[i..][1..] == found[i + 1..];
      if element.Some? {
        content := Trim(element.value);
        if |content| > LongEnough {
          break;
        }
      }
      i := i + 1;
    }
  }

  /** The body fallback: trimmed, then every run of white space made one space. */
  function BodyText(body: string): string {
    CollapseSpaces(Trim(body))
  }

  /** The body fallback neither starts nor ends with white space, and holds no run of it. */
  lemma BodyTextShape(body: string)
    ensures var r := BodyText(body);
      (r != [] ==> !IsSpace(r[0]) && !IsSpace(r[|r| - 1])) &&
      (forall i | 0 <= i < |r| - 1 :: !(IsSpace(r[i]) && IsSpace(r[i + 1])))
  {
    var t := Trim(body);
    if t != [] {
      CollapseLast(t);
    }
  }

  /** Collapsing white space keeps whether the text ends with white space. */
  lemma {:induction false} CollapseLast(s: string)
    requires s != []
    ensures var r := CollapseSpaces(s); r != [] && (IsSpace(r[|r| - 1]) <==> IsSpace(s[|s| - 1]))
    decreases |s|
  {
    var r := CollapseSpaces(s);
    if IsSpace(s[0]) {
      var t := TrimStart(s);
      if t != [] {
        CollapseLast(t);
        assert t[|t| - 1] == s[|s| - 1];
      } else {
        assert Blank(s[..|s|]);
        assert s[..|s|][|s| - 1] == s[|s| - 1];
      }
    } else if |s| > 1 {
      CollapseLast(s[1..]);
    }
  }

  /** The content of the reply: the container text, or the body text when it is empty or shorter than 50. */
  function Content(page: Page): string {
    var c := Pick(Found(page), "");
    if c == "" || |c| < TooShort then BodyText(page.body) else c
  }

  /** The error text of a failed request. */
  function FetchErrorText(e: FetchError): string {
    match e
    case OtherError => "抓取URL内容时出错"
    case ClientError(m, None) => "请求失败: " + m
    case ClientError(m, Some(status)) => "请求失败: " + m + " (状态码: " + IntToString(status) + ")"
  }

  /**
   * `GET`: an absent or empty `url` is refused with 400; a failed request
   * answers 500 with the client's message; otherwise the trimmed title, the
   * content and the url.
   */
  method Get(url: Option<string>, fetch: Fetch) returns (r: Response<FetchReply>)
    ensures url.None? || url == Some("") ==> r == Failure(400, "请提供有效的URL参数")
    ensures url.Some? && url.value != "" && fetch.Failed? ==> r == Failure(500, FetchErrorText(fetch.error))
    ensures url.Some? && url.value != "" && fetch.Fetched? ==>
              r == Success(FetchReply(Trim(fetch.page.title), Content(fetch.page), url.value))
  {
    if url.None? || url.value == "" {
      return Failure(400, "请提供有效的URL参数");
    }
    match fetch
    case Failed(e) =>
      r := Failure(500, FetchErrorText(e));
    case Fetched(page) =>
      var title := Trim(page.title);
      var content := ScanSelectors(page);
      if content == "" || |content| < TooShort {
        content := BodyText(page.body);
      }
      r := Success(FetchReply(title, content, url.value));
  }

  /** A container text longer than 100 found by the first selector that has one is the content. */
  lemma FirstLongContainer(page: Page, k: nat)
    requires k < |Selectors| && Long(page.select(Selectors[k]))
    requires forall j | 0 <= j < k :: !Long(page.select(Selectors[j]))
    ensures Content(page) == Trim(page.select(Selectors[k]).value)
  {
    PickFirstLong(Found(page), "", k);
  }

  /** Without a long container, the last container found is the content when it has 50 characters or more. */
  lemma LastContainer(page: Page)
    requires forall j | 0 <= j < |Selectors| :: !Long(page.select(Selectors[j]))
    ensures var c := LastMatched(Found(page), "");
      Content(page) == if |c| < TooShort then BodyText(page.body) else c
  {
    PickNoLong(Found(page), "");
  }

  /** The status is reported only when the failed request had a response. */
  lemma StatusReported(m: string, status: int)
    ensures EndsWith(FetchErrorText(ClientError(m, Some(status))), " (状态码: " + IntToString(status) + ")")
    ensures StartsWith(FetchErrorText(ClientError(m, None)), "请求失败: ")
  {
    var s := " (状态码: " + IntToString(status) + ")";
    var pre := "请求失败: " + m;
    assert FetchErrorText(ClientError(m, Some(status))) == pre + s;
    assert (pre + s)[|pre|..] == s;
    assert pre[..|"请求失败: "|] == "请求失败: ";
  }
}
