/**
 * The refinement chat of the content page
 * (src/components/features/ChatInterface.tsx): flattening message content,
 * the reply-extraction cascade, and the per-(session, platform) transcript
 * that is restored from and persisted to browser storage.
 */
module ChatInterface {
  import opened Wrappers
  import opened Strings
  import Seqs
  import OpenRouter
  import opened HistoryStore

  type Message = OpenRouter.Message
  type Content = OpenRouter.Content
  type ContentPart = OpenRouter.ContentPart

  /** The texts of the text parts whose text is not empty, in order. */
  function NonEmptyTexts(parts: seq<ContentPart>): (r: seq<string>)
    ensures forall k | 0 <= k < |r| :: r[k] != ""
    decreases |parts|
  {
    if parts == [] then []
    else if parts[0].TextPart? && parts[0].text != "" then [parts[0].text] + NonEmptyTexts(parts[1..])
    else NonEmptyTexts(parts[1..])
  }

  /** `contentToString`: absent or empty content is "", a string is itself, parts are joined by newlines. */
  function ContentToString(content: Option<Content>): string {
    match content
    case None => ""
    case Some(Str(s)) => s
    case Some(Parts(parts)) => Join(NonEmptyTexts(parts), "\n")
  }

  /** When no text part holds a newline, splitting the flattened text on newlines gives back the non-empty texts. */
  lemma ContentToStringSplits(parts: seq<ContentPart>)
    requires |NonEmptyTexts(parts)| >= 1
    requires forall k | 0 <= k < |parts| && parts[k].TextPart? :: '\n' !in parts[k].text
    ensures Split(ContentToString(Some(OpenRouter.Parts(parts))), "\n") == NonEmptyTexts(parts)
  {
    NonEmptyTextsFree(parts, '\n');
    SplitJoinChar(NonEmptyTexts(parts), '\n');
  }

  lemma {:induction false} NonEmptyTextsFree(parts: seq<ContentPart>, c: char)
    requires forall k | 0 <= k < |parts| && parts[k].TextPart? :: c !in parts[k].text
    ensures forall k | 0 <= k < |NonEmptyTexts(parts)| :: c !in NonEmptyTexts(parts)[k]
    decreases |parts|
  {
    if parts != [] {
      NonEmptyTextsFree(parts[1..], c);
    }
  }

  // ---------------------------------------------------------------------
  // The extraction cascade
  // ---------------------------------------------------------------------

  /** The quote characters of the quoted-span pattern. */
  predicate IsQuote(c: char) { c == '"' || c == '\'' }

  /**
   * The second capture of `/(["'])([\s\S]*?)\1/`: from the leftmost quote
   * character that occurs again later, the text up to its next occurrence.
   */
  function FirstQuoted(s: string): Option<string>
    decreases |s|
  {
    if s == [] then None
    else if IsQuote(s[0]) && s[0] in s[1..] then Some(s[1..][..IndexOfChar(s[1..], s[0])])
    else FirstQuoted(s[1..])
  }

  /** No quote character of `s` occurs again after itself. */
  predicate NoClosedQuote(s: string) {
    forall i, j | 0 <= i < j < |s| && IsQuote(s[i]) :: s[j] != s[i]
  }

  /** The quoted-span pattern fails exactly when no quote character is closed. */
  lemma {:induction false} FirstQuotedNoneIff(s: string)
    ensures FirstQuoted(s).None? <==> NoClosedQuote(s)
    decreases |s|
  {
    if s != [] {
      FirstQuotedNoneIff(s[1..]);
      if IsQuote(s[0]) && s[0] in s[1..] {
        var j := IndexOfChar(s[1..], s[0]);
        assert s[j + 1] == s[0];
      } else {
        if NoClosedQuote(s[1..]) {
          forall i, j | 0 <= i < j < |s| && IsQuote(s[i]) ensures s[j] != s[i] {
            if i == 0 {
              assert s[j] == s[1..][j - 1];
            } else {
              assert s[i] == s[1..][i - 1] && s[j] == s[1..][j - 1];
            }
          }
        }
        if NoClosedQuote(s) {
          forall i, j | 0 <= i < j < |s[1..]| && IsQuote(s[1..][i]) ensures s[1..][j] != s[1..][i] {
            assert s[1..][i] == s[i + 1] && s[1..][j] == s[j + 1];
          }
        }
      }
    }
  }

  /** The captured span is a piece of the text. */
  lemma {:induction false} FirstQuotedInfix(s: string)
    requires FirstQuoted(s).Some?
    ensures Infix(FirstQuoted(s).value, s)
    decreases |s|
  {
    if IsQuote(s[0]) && s[0] in s[1..] {
      var j := IndexOfChar(s[1..], s[0]);
      assert s[1..][..j] == s[1..1 + j];
      assert InfixAt(FirstQuoted(s).value, s, 1);
    } else {
      FirstQuotedInfix(s[1..]);
      var k: nat :| InfixAt(FirstQuoted(s).value, s[1..], k);
      assert InfixAt(s[1..], s, 1);
      InfixTrans(FirstQuoted(s).value, s[1..], s, k, 1);
    }
  }

  predicate NoQuote(s: string) { forall i | 0 <= i < |s| :: !IsQuote(s[i]) }

  lemma NoQuoteNoClosed(s: string)
    requires NoQuote(s)
    ensures NoClosedQuote(s)
  {
  }

  /** A span opened after quote-free text and closed by the same character is the capture. */
  lemma {:induction false} FirstQuotedOf(a: string, q: char, b: string, c: string)
    requires NoQuote(a) && IsQuote(q) && q !in b
    ensures FirstQuoted(a + [q] + b + [q] + c) == Some(b)
    decreases |a|
  {
    var s := a + [q] + b + [q] + c;
    if a == [] {
      assert s == [q] + (b + [q] + c);
      assert s[1..] == b + [q] + c;
      IndexOfCharPast(b, q, c);
      assert s[1..][..|b|] == b;
    } else {
      assert s[1..] == a[1..] + [q] + b + [q] + c;
      FirstQuotedOf(a[1..], q, b, c);
    }
  }

  /** The lead-in phrases of this copy, with each `[:：]` alternative written out. */
  const LeadIns: seq<string> := ["以下是", "这是", "内容是", "优化后的内容:", "优化后的内容：",
    "修改后的内容:", "修改后的内容：", "优化内容:", "优化内容：", "更新后的文案:", "更新后的文案：",
    "我已经", "这里是"]

  /** The first phrase, in list order, that `s` starts with. */
  function PhraseAt(s: string, phrases: seq<string>): (r: Option<string>)
    ensures r.Some? ==> r.value in phrases && StartsWith(s, r.value)
    ensures r.None? ==> forall k | 0 <= k < |phrases| :: !StartsWith(s, phrases[k])
    decreases |phrases|
  {
    if phrases == [] then None
    else if StartsWith(s, phrases[0]) then Some(phrases[0])
    else PhraseAt(s, phrases[1..])
  }

  /**
   * The second capture of `/(p1|p2|…)([\s\S]*)/`: the text after the phrase
   * matched at the leftmost position where any phrase matches.
   */
  function LeadInRest(s: string, phrases: seq<string>): Option<string>
    decreases |s|
  {
    match PhraseAt(s, phrases)
    case Some(p) => Some(s[|p|..])
    case None => if s == [] then None else LeadInRest(s[1..], phrases)
  }

  /** The text after a lead-in phrase is a suffix of the reply. */
  lemma {:induction false} LeadInRestSuffix(s: string, phrases: seq<string>)
    requires LeadInRest(s, phrases).Some?
    ensures var rest := LeadInRest(s, phrases).value; |rest| <= |s| && rest == s[|s| - |rest|..]
    decreases |s|
  {
    match PhraseAt(s, phrases)
    case Some(p) =>
    case None => LeadInRestSuffix(s[1..], phrases);
  }

  /** Text holding none of the phrases' first characters matches no lead-in. */
  lemma {:induction false} LeadInAbsent(s: string, phrases: seq<string>)
    requires forall k | 0 <= k < |phrases| :: phrases[k] != "" && phrases[k][0] !in s
    ensures LeadInRest(s, phrases).None?
    decreases |s|
  {
    forall k | 0 <= k < |phrases| ensures !StartsWith(s, phrases[k]) {
      var p := phrases[k];
      if |p| <= |s| {
        assert s[0] in s;
        assert s[..|p|][0] == s[0];
      }
    }
    PhraseAtNone(s, phrases);
    if s != [] {
      assert forall k | 0 <= k < |phrases| :: phrases[k][0] !in s[1..] by {
        forall k | 0 <= k < |phrases| ensures phrases[k][0] !in s[1..] {
          assert forall x | x in s[1..] :: x in s;
        }
      }
      LeadInAbsent(s[1..], phrases);
    }
  }

  lemma PhraseAtNone(s: string, phrases: seq<string>)
    requires forall k | 0 <= k < |phrases| :: !StartsWith(s, phrases[k])
    ensures PhraseAt(s, phrases).None?
  {
  }

  /** The pleasantry phrases after which the rest of a reply is dropped. */
  const Pleasantries: seq<string> := ["希望这能帮到你", "如果你需要", "如果有任何其他"]

  /** `s.split(/p1|p2|…/)[0]` when some phrase occurs: the text before the leftmost match. */
  function BeforePhrase(s: string, phrases: seq<string>): Option<string>
    decreases |s|
  {
    if PhraseAt(s, phrases).Some? then Some([])
    else if s == [] then None
    else match BeforePhrase(s[1..], phrases)
      case None => None
      case Some(t) => Some([s[0]] + t)
  }

  /** If any phrase occurs, the split has a first piece. */
  lemma {:induction false} BeforePhraseFound(s: string, phrases: seq<string>, p: string)
    requires p in phrases && Contains(s, p)
    ensures BeforePhrase(s, phrases).Some?
    decreases |s|
  {
    if PhraseAt(s, phrases).None? {
      var i := IndexOf(s, p).value;
      var k :| 0 <= k < |phrases| && phrases[k] == p;
      assert i != 0;
      StartsAtShift(s, p);
      ContainsAt(s[1..], p, i - 1);
      BeforePhraseFound(s[1..], phrases, p);
    }
  }

  /** The text before the first phrase is a prefix of the reply. */
  lemma {:induction false} BeforePhrasePrefix(s: string, phrases: seq<string>)
    requires BeforePhrase(s, phrases).Some?
    ensures var t := BeforePhrase(s, phrases).value; |t| <= |s| && t == s[..|t|]
    decreases |s|
  {
    if PhraseAt(s, phrases).None? {
      BeforePhrasePrefix(s[1..], phrases);
    }
  }

  /** `paragraphs.reduce((a, b) => a.length > b.length ? a : b)`. */
  function Longest(ps: seq<string>): string
    requires |ps| > 0
    decreases |ps|
  {
    if |ps| == 1 then ps[0]
    else
      var a := Longest(ps[..|ps| - 1]);
      var b := ps[|ps| - 1];
      if |a| > |b| then a else b
  }

  /** The reduction picks a paragraph of greatest length, and of those the last one. */
  lemma {:induction false} LongestSpec(ps: seq<string>)
    requires |ps| > 0
    ensures Longest(ps) in ps
    ensures forall i | 0 <= i < |ps| :: |ps[i]| <= |Longest(ps)|
    ensures exists k | 0 <= k < |ps| :: ps[k] == Longest(ps) && forall j | k < j < |ps| :: |ps[j]| < |Longest(ps)|
    decreases |ps|
  {
    if |ps| > 1 {
      var init := ps[..|ps| - 1];
      LongestSpec(init);
      var a := Longest(init);
      var b := ps[|ps| - 1];
      if |a| > |b| {
        var k :| 0 <= k < |init| && init[k] == a && forall j | k < j < |init| :: |init[j]| < |a|;
        assert ps[k] == a;
        forall j | k < j < |ps| ensures |ps[j]| < |a| {
          if j < |ps| - 1 { assert ps[j] == init[j]; }
        }
      } else {
        assert ps[|ps| - 1] == b;
      }
      forall i | 0 <= i < |ps| ensures |ps[i]| <= |Longest(ps)| {
        if i < |ps| - 1 { assert ps[i] == init[i]; }
      }
    }
  }

  /** The '\n\n'-separated paragraphs that are not blank, in order. */
  function Paragraphs(s: string): seq<string> {
    Seqs.Filter(Split(s, "\n\n"), NonBlank)
  }

  predicate NonBlank(p: string) { !Blank(p) }

  /** Trimming a piece of the text gives a piece of the text. */
  lemma TrimKeepsInfix(t: string, s: string)
    requires Infix(t, s)
    ensures Infix(Trim(t), s)
  {
    var k: nat :| InfixAt(t, s, k);
    InfixTrans(Trim(t), t, s, |t| - |TrimStart(t)|, k);
  }

  /** Rule 1: a non-empty quoted span, trimmed. */
  function QuoteRule(full: string): (r: Option<string>)
    ensures r.Some? ==> Infix(r.value, full)
    ensures r.None? <==> NoClosedQuote(full) || FirstQuoted(full) == Some("")
  {
    FirstQuotedNoneIff(full);
    var quoted := FirstQuoted(full);
    if quoted.Some? && quoted.value != "" then
      FirstQuotedInfix(full);
      TrimKeepsInfix(quoted.value, full);
      Some(Trim(quoted.value))
    else None
  }

  /** Rule 2: the non-empty text after the leftmost lead-in phrase, trimmed. */
  function LeadInRule(full: string, phrases: seq<string>): (r: Option<string>)
    ensures r.Some? ==> Infix(r.value, full)
  {
    var rest := LeadInRest(full, phrases);
    if rest.Some? && rest.value != "" then
      LeadInRestSuffix(full, phrases);
      assert InfixAt(rest.value, full, |full| - |rest.value|);
      TrimKeepsInfix(rest.value, full);
      Some(Trim(rest.value))
    else None
  }

  /** Non-empty text after a lead-in makes the rule apply, with that text trimmed. */
  lemma LeadInRuleOf(s: string, phrases: seq<string>, rest: string)
    requires LeadInRest(s, phrases) == Some(rest) && rest != ""
    ensures LeadInRule(s, phrases) == Some(Trim(rest))
  {
  }

  /** Rule 3: when a pleasantry occurs, the trimmed text before the first one. */
  function PleasantryRule(full: string): (r: Option<string>)
    ensures r.Some? <==> exists k | 0 <= k < |Pleasantries| :: Contains(full, Pleasantries[k])
    ensures r.Some? ==> Infix(r.value, full)
  {
    if Contains(full, Pleasantries[0]) || Contains(full, Pleasantries[1]) || Contains(full, Pleasantries[2]) then
      PleasantryFound(full);
      var before := BeforePhrase(full, Pleasantries).value;
      BeforePhrasePrefix(full, Pleasantries);
      assert InfixAt(before, full, 0);
      TrimKeepsInfix(before, full);
      Some(Trim(before))
    else None
  }

  /** When a pleasantry occurs, the rule yields the trimmed text before the leftmost one. */
  lemma PleasantryRuleOf(s: string, k: nat, head: string)
    requires k < |Pleasantries| && Contains(s, Pleasantries[k]) && BeforePhrase(s, Pleasantries) == Some(head)
    ensures PleasantryRule(s) == Some(Trim(head))
  {
  }

  lemma PleasantryFound(full: string)
    requires Contains(full, Pleasantries[0]) || Contains(full, Pleasantries[1]) || Contains(full, Pleasantries[2])
    ensures BeforePhrase(full, Pleasantries).Some?
  {
    if Contains(full, Pleasantries[0]) { BeforePhraseFound(full, Pleasantries, Pleasantries[0]); }
    else if Contains(full, Pleasantries[1]) { BeforePhraseFound(full, Pleasantries, Pleasantries[1]); }
    else { BeforePhraseFound(full, Pleasantries, Pleasantries[2]); }
  }

  /** Rule 4: with more than one non-blank paragraph, the longest, trimmed. */
  function ParagraphRule(full: string): (r: Option<string>)
    ensures r.Some? <==> |Paragraphs(full)| > 1
    ensures r.Some? ==> Infix(r.value, full)
    ensures r.Some? ==> exists k | 0 <= k < |Paragraphs(full)| :: r.value == Trim(Paragraphs(full)[k])
  {
    var ps := Paragraphs(full);
    if |ps| > 1 then
      LongestParagraphInfix(full);
      TrimKeepsInfix(Longest(ps), full);
      Some(Trim(Longest(ps)))
    else None
  }

  /** The paragraph the cascade picks is a piece of the text. */
  lemma LongestParagraphInfix(full: string)
    requires |Paragraphs(full)| > 0
    ensures Longest(Paragraphs(full)) in Paragraphs(full)
    ensures Infix(Longest(Paragraphs(full)), full)
  {
    var ps := Paragraphs(full);
    LongestSpec(ps);
    SplitPiecesInfix(full, "\n\n");
    var pieces := Split(full, "\n\n");
    assert Longest(ps) in pieces;
    var k :| 0 <= k < |pieces| && pieces[k] == Longest(ps);
  }

  /** The cascade on the flattened reply: the first rule that applies, else the text verbatim. */
  function ExtractText(full: string): (r: string)
    ensures Infix(r, full)
  {
    match QuoteRule(full)
    case Some(t) => t
    case None =>
      match LeadInRule(full, LeadIns)
      case Some(t) => t
      case None =>
        match PleasantryRule(full)
        case Some(t) => t
        case None =>
          match ParagraphRule(full)
          case Some(t) => t
          case None => assert InfixAt(full, full, 0); full
  }

  /** `extractKeyContent`: never invents text, its result is a piece of the flattened reply. */
  function ExtractKeyContent(content: Option<Content>): (r: string)
    ensures Infix(r, ContentToString(content))
  {
    if content.None? || content == Some(OpenRouter.Str("")) then
      assert InfixAt("", ContentToString(content), 0);
      ""
    else ExtractText(ContentToString(content))
  }

  /** A non-empty quoted span decides the result: no later rule is consulted. */
  lemma QuoteFirst(s: string, t: string)
    requires FirstQuoted(s) == Some(t) && t != ""
    ensures ExtractKeyContent(Some(OpenRouter.Str(s))) == Trim(t)
  {
  }

  /**
   * When the quote rule does not apply (no closed quote, or an empty first
   * quoted span), non-empty text after the leftmost lead-in decides the result.
   */
  lemma LeadInSecond(s: string, rest: string)
    requires QuoteRule(s).None? && LeadInRest(s, LeadIns) == Some(rest) && rest != ""
    ensures ExtractKeyContent(Some(OpenRouter.Str(s))) == Trim(rest)
  {
    LeadInRuleOf(s, LeadIns, rest);
    ExtractTextLeadIn(s, Trim(rest));
    LeadInRestSuffix(s, LeadIns);
    ExtractKeyContentStr(s);
  }

  lemma ExtractKeyContentStr(s: string)
    requires s != ""
    ensures ExtractKeyContent(Some(OpenRouter.Str(s))) == ExtractText(s)
  {
  }

  lemma ExtractTextLeadIn(s: string, t: string)
    requires QuoteRule(s).None? && LeadInRule(s, LeadIns) == Some(t)
    ensures ExtractText(s) == t
  {
  }

  /** When neither the quote rule nor the lead-in rule applies, a pleasantry decides the result. */
  lemma PleasantryThird(s: string, t: string)
    requires QuoteRule(s).None? && LeadInRule(s, LeadIns).None? && PleasantryRule(s) == Some(t)
    ensures ExtractKeyContent(Some(OpenRouter.Str(s))) == t
  {
  }

  /**
   * When none of the first three rules applies, the longest non-blank
   * paragraph (the last of equally long ones), trimmed, is the result if
   * there are at least two paragraphs, and otherwise the reply as it is.
   */
  lemma ParagraphFourth(s: string)
    requires QuoteRule(s).None? && LeadInRule(s, LeadIns).None? && PleasantryRule(s).None?
    ensures var ps := Paragraphs(s);
      ExtractKeyContent(Some(OpenRouter.Str(s))) == if |ps| > 1 then Trim(Longest(ps)) else s
  {
    if s == "" {
      EmptyNoParagraphs();
    }
  }

  /** The empty reply has no paragraph. */
  lemma EmptyNoParagraphs()
    ensures Paragraphs("") == []
  {
    assert Split("", "\n\n") == [""];
    assert [""][1..] == [];
  }

  /** Text free of the phrases' first characters, then a phrase: the split's first piece is that text. */
  lemma {:induction false} BeforePhraseSkip(a: string, b: string, phrases: seq<string>)
    requires forall k | 0 <= k < |phrases| :: phrases[k] != "" && phrases[k][0] !in a
    requires PhraseAt(b, phrases).Some?
    ensures BeforePhrase(a + b, phrases) == Some(a)
    decreases |a|
  {
    if a == [] {
      assert a + b == b;
    } else {
      forall k | 0 <= k < |phrases| ensures !StartsWith(a + b, phrases[k]) {
        var p := phrases[k];
        if |p| <= |a + b| {
          assert (a + b)[..|p|][0] == a[0];
          assert a[0] in a;
        }
      }
      PhraseAtNone(a + b, phrases);
      assert (a + b)[1..] == a[1..] + b;
      forall k | 0 <= k < |phrases| ensures phrases[k][0] !in a[1..] {
        assert forall x | x in a[1..] :: x in a;
      }
      BeforePhraseSkip(a[1..], b, phrases);
      assert [a[0]] + a[1..] == a;
    }
  }

  /** A quoted span after quote-free text, with no white space at its ends, is the extracted content as it is. */
  lemma QuotedSpanKept(a: string, q: char, b: string, c: string)
    requires NoQuote(a) && IsQuote(q) && q !in b && b != [] && !IsSpace(b[0]) && !IsSpace(b[|b| - 1])
    ensures ExtractKeyContent(Some(OpenRouter.Str(a + [q] + b + [q] + c))) == b
  {
    FirstQuotedOf(a, q, b, c);
    TrimUnpadded(b);
    QuoteFirst(a + [q] + b + [q] + c, b);
  }

  /** Quote-free text after the first lead-in phrase, with no white space at its ends, is the extracted content as it is. */
  lemma FirstLeadInKept(rest: string)
    requires NoQuote(rest) && rest != [] && !IsSpace(rest[0]) && !IsSpace(rest[|rest| - 1])
    ensures ExtractKeyContent(Some(OpenRouter.Str(LeadIns[0] + rest))) == rest
  {
    var p := LeadIns[0];
    var s := p + rest;
    assert NoQuote(p) by {
      assert p == ['以', '下', '是'];
    }
    assert NoQuote(s) by {
      forall i | 0 <= i < |s| ensures !IsQuote(s[i]) {
        if i >= |p| { assert s[i] == rest[i - |p|]; }
      }
    }
    NoQuoteNoClosed(s);
    assert StartsWith(s, p);
    assert s[|p|..] == rest;
    TrimUnpadded(rest);
    LeadInSecond(s, rest);
  }

  // ---------------------------------------------------------------------
  // The transcript
  // ---------------------------------------------------------------------

  /** The three fixed parts of the optimiser's system prompt, around the platform name and the draft. */
  const OptimizerIntro := "你是一位专业的社交媒体内容优化专家，正在帮助用户优化"
  const OptimizerDraftLead := "平台的内容。\n\n用户当前需要优化的内容是: \""
  const OptimizerRules := "\"\n\n请严格按照以下要求回复:\n1. 仅输出优化后的完整内容，不要添加任何解释、前言或结语\n2. 不要使用引号或其他标记包裹内容\n3. 不要添加\"以下是优化后的内容\"等前缀\n4. 只输出可以直接使用的文本内容\n5. 根据用户的优化要求直接修改原文，保持内容的完整性\n\n您的回复将被直接用作最终内容，所以必须只包含优化后的文案本身。"

  function SystemPrompt(platform: string, draft: string): string {
    OptimizerIntro + platform + OptimizerDraftLead + draft + OptimizerRules
  }

  /** The fixed parts of the greeting, around the platform name. */
  const WelcomeLead := "👋 我已准备好帮您优化"
  const WelcomeAsk := "平台的内容。请告诉我您想要如何调整内容，例如增加吸引力、调整语气或添加特定元素等。"

  function Welcome(platform: string): string {
    WelcomeLead + platform + WelcomeAsk
  }

  /** The storage key of a session's history for one platform. */
  function HistoryKey(sessionId: string, platform: string): string {
    "chat_history_" + sessionId + "_" + platform
  }

  /** The transcript shown on (re)initialisation: a fresh system message, then the saved history or the welcome. */
  function Restored(system: Message, welcome: Message, saved: seq<Message>): (r: seq<Message>)
    ensures |saved| > 0 ==> r == [system] + saved
    ensures |saved| == 0 ==> r == [system, welcome]
  {
    if |saved| > 0 then [system] + saved else [system, welcome]
  }

  /** `filter(role === 'assistant').pop()`: the last assistant message. */
  function LastAssistant(msgs: seq<Message>): (r: Option<Message>)
    ensures r.Some? ==> r.value in msgs && r.value.role == OpenRouter.Assistant
    ensures r.None? ==> forall i | 0 <= i < |msgs| :: msgs[i].role != OpenRouter.Assistant
    decreases |msgs|
  {
    if msgs == [] then None
    else if msgs[|msgs| - 1].role == OpenRouter.Assistant then Some(msgs[|msgs| - 1])
    else LastAssistant(msgs[..|msgs| - 1])
  }

  /** The draft a restored history yields, if it holds an assistant message. */
  function RestoredDraft(saved: seq<Message>): Option<string> {
    match LastAssistant(saved)
    case None => None
    case Some(m) => Some(ContentToString(Some(m.content)))
  }

  /** Messages as sent to the service: every content flattened to a string. */
  function AsSent(msgs: seq<Message>): (r: seq<Message>)
    ensures |r| == |msgs|
    ensures forall i | 0 <= i < |r| :: r[i].role == msgs[i].role && r[i].content.Str?
  {
    seq(|msgs|, i requires 0 <= i < |msgs| => OpenRouter.Message(msgs[i].role, OpenRouter.Str(ContentToString(Some(msgs[i].content)))))
  }

  /**
   * Persist then restore: after a successful turn the saved history brings
   * back the same non-system transcript and the reply as the draft.
   */
  lemma RestoreAfterTurn(msgs: seq<Message>, user: Message, reply: Content, system: Message, welcome: Message)
    requires user.role == OpenRouter.User
    ensures var saved := WithoutSystem(msgs + [user, OpenRouter.Message(OpenRouter.Assistant, reply)]);
      Restored(system, welcome, saved) == [system] + WithoutSystem(msgs) + [user, OpenRouter.Message(OpenRouter.Assistant, reply)]
      && RestoredDraft(saved) == Some(ContentToString(Some(reply)))
  {
    var a := OpenRouter.Message(OpenRouter.Assistant, reply);
    WithoutSystemAppend(msgs, [user, a]);
    var saved := WithoutSystem(msgs + [user, a]);
    assert saved == WithoutSystem(msgs) + [user, a];
    assert saved[|saved| - 1] == a;
  }

  /** The component's state: the transcript, the draft and the flags. */
  class Session {
    const platform: string
    const sessionId: string
    var messages: seq<Message>
    var optimizedContent: string
    var hasOptimizedContent: bool
    var applySuccess: bool
    var error: Option<string>
    var isLoading: bool

    constructor (platform: string, sessionId: string)
      ensures this.platform == platform && this.sessionId == sessionId
      ensures messages == [] && optimizedContent == "" && !hasOptimizedContent
      ensures !applySuccess && error.None? && !isLoading
    {
      this.platform := platform;
      this.sessionId := sessionId;
      messages := [];
      optimizedContent := "";
      hasOptimizedContent := false;
      applySuccess := false;
      error := None;
      isLoading := false;
    }

    function Key(): string {
      HistoryKey(sessionId, platform)
    }

    /**
     * The initialisation effect: restore or greet; a restored assistant reply
     * becomes the draft and is passed to the parent (`applied`).
     */
    method Initialize(initialContent: string, currentContent: string, store: Store) returns (applied: Option<string>)
      modifies this
      ensures var draft := if currentContent != "" then currentContent else initialContent;
        var saved := Load(store.items, Key());
        messages == Restored(OpenRouter.Message(OpenRouter.System, OpenRouter.Str(SystemPrompt(platform, draft))),
                             OpenRouter.Message(OpenRouter.Assistant, OpenRouter.Str(Welcome(platform))), saved)
        && applied == (if |saved| > 0 then RestoredDraft(saved) else None)
        && (applied.Some? ==> optimizedContent == applied.value && hasOptimizedContent)
        && (applied.None? ==> optimizedContent == old(optimizedContent) && hasOptimizedContent == old(hasOptimizedContent))
      ensures applySuccess == old(applySuccess) && error == old(error) && isLoading == old(isLoading)
    {
      var draft := if currentContent != "" then currentContent else initialContent;
      var system := OpenRouter.Message(OpenRouter.System, OpenRouter.Str(SystemPrompt(platform, draft)));
      var welcome := OpenRouter.Message(OpenRouter.Assistant, OpenRouter.Str(Welcome(platform)));
      var saved := Load(store.items, Key());
      applied := None;
      if |saved| > 0 {
        messages := [system] + saved;
        var last := LastAssistant(saved);
        if last.Some? {
          var content := ContentToString(Some(last.value.content));
          optimizedContent := content;
          hasOptimizedContent := true;
          applied := Some(content);
        }
      } else {
        messages := [system, welcome];
      }
    }

    /**
     * `handleSendMessage`: the user message is appended at once; a reply is
     * appended after it, the history is saved without system messages and the
     * raw reply text becomes the draft; a failure keeps the user message,
     * records the error and saves nothing.
     */
    method SendMessage(content: string, service: seq<Message> -> Result<Content>, store: Store)
      returns (applied: Option<string>)
      modifies this, store
      ensures var user := OpenRouter.Message(OpenRouter.User, OpenRouter.Str(content));
        var updated := old(messages) + [user];
        match service(AsSent(updated))
        case Ok(reply) =>
          messages == updated + [OpenRouter.Message(OpenRouter.Assistant, reply)]
          && store.items == old(store.items)[Key() := WithoutSystem(messages)]
          && optimizedContent == ContentToString(Some(reply)) && hasOptimizedContent
          && applied == Some(optimizedContent) && error.None?
        case Err(msg) =>
          messages == updated && store.items == old(store.items) && error == Some(msg)
          && optimizedContent == old(optimizedContent) && hasOptimizedContent == old(hasOptimizedContent)
          && applied.None?
      ensures !applySuccess && !isLoading
    {
      error := None;
      applySuccess := false;
      var updated := messages + [OpenRouter.Message(OpenRouter.User, OpenRouter.Str(content))];
      messages := updated;
      isLoading := true;
      applied := Receive(service(AsSent(updated)), store);
    }

    /** The answer to a sent turn: a reply is appended, saved and drafted; a failure is recorded. */
    method Receive(outcome: Result<Content>, store: Store) returns (applied: Option<string>)
      modifies this, store
      ensures match outcome
        case Ok(reply) =>
          messages == old(messages) + [OpenRouter.Message(OpenRouter.Assistant, reply)]
          && store.items == old(store.items)[Key() := WithoutSystem(messages)]
          && optimizedContent == ContentToString(Some(reply)) && hasOptimizedContent
          && applied == Some(optimizedContent) && error == old(error)
        case Err(msg) =>
          messages == old(messages) && store.items == old(store.items) && error == Some(msg)
          && optimizedContent == old(optimizedContent) && hasOptimizedContent == old(hasOptimizedContent)
          && applied.None?
      ensures applySuccess == old(applySuccess) && !isLoading
    {
      applied := None;
      if outcome.Ok? {
        var reply := outcome.value;
        messages := messages + [OpenRouter.Message(OpenRouter.Assistant, reply)];
        store.Save(Key(), messages);
        optimizedContent := ContentToString(Some(reply));
        hasOptimizedContent := true;
        applied := Some(optimizedContent);
      } else {
        error := Some(outcome.msg);
      }
      isLoading := false;
    }

    /** `handleApplyChanges`: with a parent callback and a draft, the draft is passed on. */
    method ApplyChanges(hasCallback: bool) returns (applied: Option<string>)
      modifies this
      ensures hasCallback && hasOptimizedContent ==> applied == Some(optimizedContent) && applySuccess
      ensures !(hasCallback && hasOptimizedContent) ==> applied.None? && applySuccess == old(applySuccess)
      ensures messages == old(messages) && optimizedContent == old(optimizedContent)
      ensures hasOptimizedContent == old(hasOptimizedContent) && error == old(error) && isLoading == old(isLoading)
    {
      applied := None;
      if hasCallback && hasOptimizedContent {
        applied := Some(optimizedContent);
        applySuccess := true;
      }
    }
  }
}
