/**
 * The per-platform refinement dialog of the create page
 * (src/components/features/ContentChatInterface.tsx). It repeats the
 * extraction cascade of the other chat with two differences (no pleasantry
 * rule, a shorter lead-in list), flattens parts without separators, hands
 * the extracted text to its parent after every reply, and persists even a
 * failed turn, with an apology in place of the reply.
 */
module ContentChatInterface {
  import opened Wrappers
  import opened Strings
  import OpenRouter
  import opened HistoryStore
  import ChatInterface
  import Seqs

  type Message = OpenRouter.Message
  type Content = OpenRouter.Content
  type ContentPart = OpenRouter.ContentPart

  /** The texts of all text parts, in order, empty ones included. */
  function Texts(parts: seq<ContentPart>): (r: seq<string>)
    ensures |r| <= |parts|
    decreases |parts|
  {
    if parts == [] then []
    else if parts[0].TextPart? then [parts[0].text] + Texts(parts[1..])
    else Texts(parts[1..])
  }

  /** `contentToString`: a string is itself, text parts are concatenated. */
  function ContentToString(content: Content): string {
    match content
    case Str(s) => s
    case Parts(parts) => Join(Texts(parts), "")
  }

  /** Flattening distributes over concatenation of part lists: nothing is inserted between parts. */
  lemma {:induction false} ContentToStringConcat(a: seq<ContentPart>, b: seq<ContentPart>)
    ensures ContentToString(OpenRouter.Parts(a + b)) == ContentToString(OpenRouter.Parts(a)) + ContentToString(OpenRouter.Parts(b))
  {
    TextsConcat(a, b);
    JoinEmptyConcat(Texts(a), Texts(b));
  }

  lemma {:induction false} TextsConcat(a: seq<ContentPart>, b: seq<ContentPart>)
    ensures Texts(a + b) == Texts(a) + Texts(b)
    decreases |a|
  {
    if a == [] {
      assert a + b == b;
    } else {
      assert (a + b)[1..] == a[1..] + b;
      TextsConcat(a[1..], b);
    }
  }

  /** The two copies flatten two text parts differently: a newline between them versus nothing. */
  lemma SeparatorsDiffer(a: string, b: string)
    requires a != "" && b != ""
    ensures var parts := [OpenRouter.TextPart(a), OpenRouter.TextPart(b)];
      ChatInterface.ContentToString(Some(OpenRouter.Parts(parts))) == a + "\n" + b
      && ContentToString(OpenRouter.Parts(parts)) == a + b
  {
    var parts := [OpenRouter.TextPart(a), OpenRouter.TextPart(b)];
    assert parts[1..] == [OpenRouter.TextPart(b)];
    assert parts[1..][1..] == [];
    assert ChatInterface.NonEmptyTexts(parts[1..]) == [b];
    assert ChatInterface.NonEmptyTexts(parts) == [a, b];
    assert Texts(parts) == [a, b];
    assert [a, b][1..] == [b];
    assert Join([a, b], "\n") == a + "\n" + b;
    assert Join([a, b], "") == a + "" + b;
  }

  /** This copy's lead-in phrases: the other copy's list without "我已经" and "这里是". */
  const LeadIns: seq<string> := ["以下是", "这是", "内容是", "优化后的内容:", "优化后的内容：",
    "修改后的内容:", "修改后的内容：", "优化内容:", "优化内容：", "更新后的文案:", "更新后的文案："]

  lemma LeadInsShorter()
    ensures LeadIns == ChatInterface.LeadIns[..11]
    ensures "我已经" in ChatInterface.LeadIns && "我已经" !in LeadIns
  {
    assert ChatInterface.LeadIns[11] == "我已经";
  }

  /** The cascade: quoted span, lead-in, longest paragraph, else the text verbatim. */
  function ExtractText(full: string): (r: string)
    ensures Infix(r, full)
  {
    match ChatInterface.QuoteRule(full)
    case Some(t) => t
    case None =>
      match ChatInterface.LeadInRule(full, LeadIns)
      case Some(t) => t
      case None =>
        match ChatInterface.ParagraphRule(full)
        case Some(t) => t
        case None => assert InfixAt(full, full, 0); full
  }

  /** `extractKeyContent`: never invents text, its result is a piece of the flattened reply. */
  function ExtractKeyContent(content: Option<Content>): (r: string)
    ensures content.Some? ==> Infix(r, ContentToString(content.value))
    ensures content.None? ==> r == ""
  {
    if content.None? || content == Some(OpenRouter.Str("")) then
      assert content.Some? ==> InfixAt("", ContentToString(content.value), 0);
      ""
    else ExtractText(ContentToString(content.value))
  }

  /** A non-empty first quoted span decides the result: no later rule is consulted. */
  lemma QuoteFirst(s: string, t: string)
    requires ChatInterface.FirstQuoted(s) == Some(t) && t != ""
    ensures ExtractKeyContent(Some(OpenRouter.Str(s))) == Trim(t)
  {
  }

  /** When the quote rule does not apply, non-empty text after the leftmost of this copy's lead-ins decides the result. */
  lemma LeadInSecond(s: string, rest: string)
    requires ChatInterface.QuoteRule(s).None? && ChatInterface.LeadInRest(s, LeadIns) == Some(rest) && rest != ""
    ensures ExtractKeyContent(Some(OpenRouter.Str(s))) == Trim(rest)
  {
    ChatInterface.LeadInRuleOf(s, LeadIns, rest);
  }

  /**
   * When neither the quote rule nor the lead-in rule applies, pleasantries
   * or not, the longest non-blank paragraph (the last of equally long ones),
   * trimmed, is the result if there are at least two paragraphs, and
   * otherwise the reply as it is.
   */
  lemma ParagraphThird(s: string)
    requires ChatInterface.QuoteRule(s).None? && ChatInterface.LeadInRule(s, LeadIns).None?
    ensures var ps := ChatInterface.Paragraphs(s);
      ExtractKeyContent(Some(OpenRouter.Str(s))) == if |ps| > 1 then Trim(ChatInterface.Longest(ps)) else s
  {
    if s == "" {
      ChatInterface.EmptyNoParagraphs();
    }
  }

  /**
   * Where the copies part: a reply with a pleasantry after its first
   * paragraph yields that paragraph in one copy and the longer pleasantry
   * paragraph in the other.
   */
  lemma PleasantryDivergence(s: string)
    requires s == "新文案\n\n如果你需要请留言"
    ensures ChatInterface.ExtractKeyContent(Some(OpenRouter.Str(s))) == "新文案"
    ensures ExtractKeyContent(Some(OpenRouter.Str(s))) == "如果你需要请留言"
  {
    var a, b := "新文案", "如果你需要请留言";
    DivergenceShape(s, a, b);
    NoQuoteNorLeadIn(s);
    PleasantryCut(s, a, b);
    ChatInterface.PleasantryThird(s, a);
    LongestParagraph(s, a, b);
  }

  lemma DivergenceShape(s: string, a: string, b: string)
    requires s == "新文案\n\n如果你需要请留言" && a == "新文案" && b == "如果你需要请留言"
    ensures s == ['新', '文', '案', '\n', '\n', '如', '果', '你', '需', '要', '请', '留', '言']
    ensures a == ['新', '文', '案'] && b == ['如', '果', '你', '需', '要', '请', '留', '言']
    ensures s == a + "\n\n" + b
  {
  }

  lemma NoQuoteNorLeadIn(s: string)
    requires s == ['新', '文', '案', '\n', '\n', '如', '果', '你', '需', '要', '请', '留', '言']
    ensures ChatInterface.NoClosedQuote(s) && ChatInterface.FirstQuoted(s).None?
    ensures ChatInterface.LeadInRest(s, ChatInterface.LeadIns).None? && ChatInterface.LeadInRest(s, LeadIns).None?
  {
    assert ChatInterface.NoQuote(s);
    ChatInterface.NoQuoteNoClosed(s);
    ChatInterface.FirstQuotedNoneIff(s);
    NoLeadInChars(s);
  }

  lemma NoLeadInChars(s: string)
    requires s == ['新', '文', '案', '\n', '\n', '如', '果', '你', '需', '要', '请', '留', '言']
    ensures ChatInterface.LeadInRest(s, ChatInterface.LeadIns).None? && ChatInterface.LeadInRest(s, LeadIns).None?
  {
    var firsts := ['以', '这', '内', '优', '修', '更', '我'];
    LeadInFirsts(firsts);
    assert forall c | c in firsts :: c !in s;
    FirstCharsAbsent(s, ChatInterface.LeadIns, firsts);
    FirstCharsAbsent(s, LeadIns, firsts);
  }

  lemma LeadInFirsts(firsts: seq<char>)
    requires firsts == ['以', '这', '内', '优', '修', '更', '我']
    ensures forall k | 0 <= k < |ChatInterface.LeadIns| :: ChatInterface.LeadIns[k] != "" && ChatInterface.LeadIns[k][0] in firsts
    ensures forall k | 0 <= k < |LeadIns| :: LeadIns[k] != "" && LeadIns[k][0] in firsts
  {
  }

  lemma FirstCharsAbsent(s: string, phrases: seq<string>, firsts: seq<char>)
    requires forall k | 0 <= k < |phrases| :: phrases[k] != "" && phrases[k][0] in firsts
    requires forall c | c in firsts :: c !in s
    ensures ChatInterface.LeadInRest(s, phrases).None?
  {
    ChatInterface.LeadInAbsent(s, phrases);
  }

  lemma PleasantryCut(s: string, a: string, b: string)
    requires a == ['新', '文', '案'] && b == ['如', '果', '你', '需', '要', '请', '留', '言']
    requires s == a + "\n\n" + b
    ensures ChatInterface.PleasantryRule(s) == Some(a)
  {
    var p := ChatInterface.Pleasantries[1];
    var head := a + "\n\n";
    PleasantryAhead(b, p);
    PleasantryFirstChars(head);
    ChatInterface.BeforePhraseSkip(head, b, ChatInterface.Pleasantries);
    assert s == head + b;
    assert s == head + p + b[5..];
    ContainsInfix(head, p, b[5..]);
    TrimTail(a, "\n\n");
    ChatInterface.PleasantryRuleOf(s, 1, head);
  }

  lemma PleasantryAhead(b: string, p: string)
    requires b == ['如', '果', '你', '需', '要', '请', '留', '言'] && p == ChatInterface.Pleasantries[1]
    ensures b == p + b[5..]
    ensures ChatInterface.PhraseAt(b, ChatInterface.Pleasantries).Some?
  {
    assert StartsWith(b, p);
  }

  lemma PleasantryFirstChars(head: string)
    requires head == ['新', '文', '案', '\n', '\n']
    ensures forall k | 0 <= k < |ChatInterface.Pleasantries| ::
      ChatInterface.Pleasantries[k] != "" && ChatInterface.Pleasantries[k][0] !in head
  {
  }

  lemma LongestParagraph(s: string, a: string, b: string)
    requires a == ['新', '文', '案'] && b == ['如', '果', '你', '需', '要', '请', '留', '言']
    requires s == a + "\n\n" + b
    ensures ChatInterface.ParagraphRule(s) == Some(b)
  {
    assert !IsSpace(a[0]) && !IsSpace(b[0]) && !IsSpace(b[|b| - 1]);
    SplitOnce(a, "\n\n", b);
    assert Split(s, "\n\n") == [a, b];
    assert ChatInterface.NonBlank(a) && ChatInterface.NonBlank(b);
    assert [a, b][1..] == [b];
    assert [b][1..] == [];
    assert Seqs.Filter([b], ChatInterface.NonBlank) == [b];
    assert Seqs.Filter([a, b], ChatInterface.NonBlank) == [a, b];
    assert ChatInterface.Paragraphs(s) == [a, b];
    assert [a, b][..1] == [a];
    assert ChatInterface.Longest([a, b]) == b;
    TrimUnpadded(b);
  }

  /** The storage key: the platform alone. */
  function HistoryKey(platformId: string): string {
    "chat_history_" + platformId
  }

  /** The fixed parts of the assistant's system prompt, around the platform name (twice) and the content. */
  const AssistantIntro := "你是SmartPost的AI助手，负责帮助用户优化他们的"
  const AssistantContentLead := "内容。当前的内容如下:\n\n"
  const AssistantTask := "\n\n你的任务是根据用户的需求，进一步优化和调整这段内容，同时保持"
  const AssistantRules := "平台的特点和风格。\n请直接给出优化后的完整内容，不要加任何解释或者前缀后缀。\n请直接输出可以直接使用的优化内容，不要添加引号或其他包装。"

  function SystemPrompt(platformName: string, content: string): string {
    AssistantIntro + platformName + AssistantContentLead + content + AssistantTask + platformName + AssistantRules
  }

  /** The fixed parts of the greeting, around the platform name. */
  const WelcomeLead := "我已准备好帮您优化"
  const WelcomeAsk := "内容。请告诉我您想如何调整或改进当前内容，例如\"让内容更加生动\"、\"添加更多表情符号\"或\"强调产品的某个特点\"等。"

  function Welcome(platformName: string): string {
    WelcomeLead + platformName + WelcomeAsk
  }

  const Apology := "很抱歉，处理您的请求时出错了。请稍后再试。"

  /** The transcript after one turn: the user message, then the reply or the apology. */
  function Turn(msgs: seq<Message>, user: Message, outcome: Result<Content>): (r: seq<Message>)
    ensures |r| == |msgs| + 2 && r[..|msgs|] == msgs && r[|msgs|] == user
    ensures r[|msgs| + 1].role == OpenRouter.Assistant
    ensures outcome.Ok? ==> r[|msgs| + 1].content == outcome.value
    ensures outcome.Err? ==> r[|msgs| + 1].content == OpenRouter.Str(Apology)
  {
    match outcome
    case Ok(reply) => msgs + [user, OpenRouter.Message(OpenRouter.Assistant, reply)]
    case Err(_) => msgs + [user, OpenRouter.Message(OpenRouter.Assistant, OpenRouter.Str(Apology))]
  }

  /**
   * Every turn, failed or not, is persisted: the saved history grows by the
   * user message and the assistant's answer, and a reload shows both.
   */
  lemma TurnPersisted(msgs: seq<Message>, user: Message, outcome: Result<Content>, system: Message, welcome: Message)
    requires user.role == OpenRouter.User
    ensures var saved := WithoutSystem(Turn(msgs, user, outcome));
      var last := Turn(msgs, user, outcome)[|msgs| + 1];
      saved == WithoutSystem(msgs) + [user, last]
      && ChatInterface.Restored(system, welcome, saved) == [system] + WithoutSystem(msgs) + [user, last]
  {
    var r := Turn(msgs, user, outcome);
    var last := r[|msgs| + 1];
    assert r == msgs + [user, last];
    WithoutSystemAppend(msgs, [user, last]);
  }

  /** This copy passes the extracted text on, the other keeps the raw reply as its draft. */
  lemma RawVersusExtracted(s: string)
    requires s == "\"Hi\""
    ensures ChatInterface.ContentToString(Some(OpenRouter.Str(s))) == "\"Hi\""
    ensures ExtractKeyContent(Some(OpenRouter.Str(s))) == "Hi"
  {
    ChatInterface.FirstQuotedOf("", '"', "Hi", "");
    assert s == "" + ['"'] + "Hi" + ['"'] + "";
    TrimUnpadded("Hi");
  }

  /** Messages as this copy sends them: every content flattened by its own `contentToString`. */
  function AsSent(msgs: seq<Message>): (r: seq<Message>)
    ensures |r| == |msgs|
    ensures forall i | 0 <= i < |r| :: r[i].role == msgs[i].role && r[i].content == OpenRouter.Str(ContentToString(msgs[i].content))
  {
    seq(|msgs|, i requires 0 <= i < |msgs| => OpenRouter.Message(msgs[i].role, OpenRouter.Str(ContentToString(msgs[i].content))))
  }

  /** The dialog's state. */
  class Session {
    const platformId: string
    const platformName: string
    var isOpen: bool
    var message: string
    var chatMessages: seq<Message>
    var isLoading: bool

    constructor (platformId: string, platformName: string)
      ensures this.platformId == platformId && this.platformName == platformName
      ensures !isOpen && message == "" && chatMessages == [] && !isLoading
    {
      this.platformId := platformId;
      this.platformName := platformName;
      isOpen := false;
      message := "";
      chatMessages := [];
      isLoading := false;
    }

    method SetOpen(open: bool)
      modifies this
      ensures isOpen == open
      ensures message == old(message) && chatMessages == old(chatMessages) && isLoading == old(isLoading)
    {
      isOpen := open;
    }

    method SetMessage(text: string)
      modifies this
      ensures message == text
      ensures isOpen == old(isOpen) && chatMessages == old(chatMessages) && isLoading == old(isLoading)
    {
      message := text;
    }

    /** The initialisation effect: only with content, an open dialog and an empty transcript. */
    method Initialize(content: string, store: Store)
      modifies this
      ensures old(content != "" && isOpen && |chatMessages| == 0) ==>
        chatMessages == ChatInterface.Restored(
          OpenRouter.Message(OpenRouter.System, OpenRouter.Str(SystemPrompt(platformName, content))),
          OpenRouter.Message(OpenRouter.Assistant, OpenRouter.Str(Welcome(platformName))),
          Load(store.items, HistoryKey(platformId)))
      ensures !old(content != "" && isOpen && |chatMessages| == 0) ==> chatMessages == old(chatMessages)
      ensures isOpen == old(isOpen) && message == old(message) && isLoading == old(isLoading)
    {
      if content != "" && isOpen && |chatMessages| == 0 {
        var system := OpenRouter.Message(OpenRouter.System, OpenRouter.Str(SystemPrompt(platformName, content)));
        var welcome := OpenRouter.Message(OpenRouter.Assistant, OpenRouter.Str(Welcome(platformName)));
        var saved := Load(store.items, HistoryKey(platformId));
        if |saved| > 0 {
          chatMessages := [system] + saved;
        } else {
          chatMessages := [system, welcome];
        }
      }
    }

    /**
     * `handleSendMessage`: ignored for blank input or while a request is in
     * flight; otherwise the turn is appended and persisted, and on success
     * the extracted text is handed to the parent (`update`).
     */
    method SendMessage(service: seq<Message> -> Result<Content>, store: Store) returns (update: Option<string>)
      modifies this, store
      ensures old(Trim(message) == "" || isLoading) ==>
        update.None? && chatMessages == old(chatMessages) && message == old(message)
        && isLoading == old(isLoading) && store.items == old(store.items)
      ensures !old(Trim(message) == "" || isLoading) ==>
        var user := OpenRouter.Message(OpenRouter.User, OpenRouter.Str(old(message)));
        var outcome := service(AsSent(old(chatMessages) + [user]));
        chatMessages == Turn(old(chatMessages), user, outcome)
        && store.items == old(store.items)[HistoryKey(platformId) := WithoutSystem(chatMessages)]
        && message == "" && !isLoading
        && update == (if outcome.Ok? then Some(ExtractKeyContent(Some(outcome.value))) else None)
      ensures isOpen == old(isOpen)
    {
      update := None;
      if Trim(message) == "" || isLoading {
        return;
      }
      update := Send(service, store);
    }

    /** The accepted send: the user's turn and the reply (or the apology) are appended, the history is saved, the input cleared. */
    method Send(service: seq<Message> -> Result<Content>, store: Store) returns (update: Option<string>)
      modifies this, store
      ensures var user := OpenRouter.Message(OpenRouter.User, OpenRouter.Str(old(message)));
        var outcome := service(AsSent(old(chatMessages) + [user]));
        chatMessages == Turn(old(chatMessages), user, outcome)
        && store.items == old(store.items)[HistoryKey(platformId) := WithoutSystem(chatMessages)]
        && message == "" && !isLoading
        && update == (if outcome.Ok? then Some(ExtractKeyContent(Some(outcome.value))) else None)
      ensures isOpen == old(isOpen)
    {
      update := None;
      var before := chatMessages;
      var user := OpenRouter.Message(OpenRouter.User, OpenRouter.Str(message));
      chatMessages := before + [user];
      message := "";
      isLoading := true;
      var outcome := service(AsSent(before + [user]));
      chatMessages := Turn(before, user, outcome);
      store.Save(HistoryKey(platformId), chatMessages);
      if outcome.Ok? {
        update := Some(ExtractKeyContent(Some(outcome.value)));
      }
      isLoading := false;
    }

    /** `handleKeyDown`: Enter without Shift sends. */
    method KeyDown(key: string, shift: bool, service: seq<Message> -> Result<Content>, store: Store)
      returns (update: Option<string>)
      modifies this, store
      ensures !(key == "Enter" && !shift) || old(Trim(message) == "" || isLoading) ==>
        update.None? && chatMessages == old(chatMessages) && message == old(message)
        && isLoading == old(isLoading) && store.items == old(store.items)
      ensures key == "Enter" && !shift && !old(Trim(message) == "" || isLoading) ==>
        var user := OpenRouter.Message(OpenRouter.User, OpenRouter.Str(old(message)));
        var outcome := service(AsSent(old(chatMessages) + [user]));
        chatMessages == Turn(old(chatMessages), user, outcome)
        && store.items == old(store.items)[HistoryKey(platformId) := WithoutSystem(chatMessages)]
        && message == "" && !isLoading
        && update == (if outcome.Ok? then Some(ExtractKeyContent(Some(outcome.value))) else None)
      ensures isOpen == old(isOpen)
    {
      update := None;
      if key == "Enter" && !shift {
        update := SendMessage(service, store);
      }
    }
  }
}
