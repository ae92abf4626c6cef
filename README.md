# SmartPost-demo in Dafny

SmartPost-demo is a Next.js application that turns a sentence, a long text, an
uploaded document or a web link into posts for Twitter, Xiaohongshu, Zhihu and
Weibo. It asks a completion service for one draft per selected platform,
refines drafts in a chat dialog, and stores records, generated texts, custom
prompts, platform authorisations and publish records behind bearer-token or
session-guarded API handlers.

This project models the logic of that application and proves properties of it.
There is one Dafny module per source file of the core:

- The reply-extraction cascade and the two chat sessions:
  - `ChatInterface` and `ContentChatInterface`;
  - `HistoryStore`, the browser storage of their transcripts;
  - `ChatInput`, the message box.
- Prompt composition:
  - `Utils`, the platform registry;
  - `Prompts`, the default prompt table;
  - `OpenRouter`, the prompt builders and the generation call.
- Ingestion:
  - `FileProcessing`, the file-type dispatch, the PDF page loop and the extractor fallbacks;
  - `FetchUrlRoute`, the article-container cascade;
  - `UrlProcessing`, the simulated link fetch.
- Client state:
  - `ContentPage`, `UploadPage` and `InputModes`;
  - `PlatformSelect`, `FileUpload`, `PromptManagement`, `PlatformPrompts` and `ContentGenerator`.
- API handlers over an abstract store `Store`:
  - `ContentRoute`, `ContentSearchRoute` and `ContentRecentRoute`;
  - `GenerateRoute`;
  - `PlatformPromptsRoute`, `PromptsRoute` and `PlatformsRoute`;
  - `PublishRoute`;
  - `Api`, the token extraction and pagination they share.
- Support modules:
  - `Wrappers`;
  - `Strings`, JavaScript string operations on sequences of code points;
  - `Seqs`, filtering, de-duplication and newest-first ordering.

## How the model is built

- Components whose handlers update state are classes. Their fields are the component's state, and their methods are the handlers. Each method states the whole new state.
- Pure helpers are functions, and lemmas relate them to independent definitions.
- Loops stay loops with invariants, proved against recursive specification functions:
  - the generation loops;
  - the PDF page loop;
  - the selector scan;
  - the save loops and publish loops.
- The following are parameters:
  - every external call: the completion service, the HTTP client, the document parsers and OCR, token or session verification, the store's id generation;
  - each call's outcome (a value or an error message), which the caller supplies;
  - anything the handlers read from outside, such as the signed-in user or the export date.

## Model

| member | source | states |
|---|---|---|
| Api.TokenFromBearer | src/app/api/content/route.ts:10 | a `Bearer <token>` header with a non-empty, space-free token yields exactly that token |
| Api.TokenNeedsSpace | src/app/api/content/route.ts:10-16 | a header without a space yields no token, so the handler answers 401 |
| Api.StripBearerOfBearer | src/app/api/platforms/route.ts:9 | removing the first `Bearer ` from a Bearer header yields its token |
| Api.ExtractionsDiffer | src/app/api/platforms/route.ts:9 | on a header in another scheme the word-split extraction drops the scheme while the `Bearer `-removal keeps the whole header |
| Api.BearerUser | src/app/api/content/route.ts:10-24 | every failure is 401; success exactly when a token is present and verifies, and then the body is the verified user |
| Api.Pages | src/app/api/content/route.ts:86 | `ceil(total / limit)`: the pages hold every record, and one page fewer would not |
| Api.Page | src/app/api/content/route.ts:28-54 | a page holds at most `limit` records, the i-th being the record at `(page - 1) * limit + i` |
| Api.PageSorted | src/app/api/content/route.ts:50-54 | a page of a newest-first list is newest first |
| Api.PagesCoverAll | src/app/api/content/route.ts:28-54 | reading pages 1 to `Pages(total)` shows every record once, in order |
| Api.FirstPagesPrefix | src/app/api/content/route.ts:28-54 | the first n pages laid end to end are the first `n * limit` records |
| Api.Distinct | src/app/api/content/route.ts:66-68 | the de-duplicated platform list has no repeats, holds exactly the platforms of the input, and lists them in the order of their first occurrence |
| Api.PlatformList | src/app/api/content/route.ts:66-67 | the i-th entry is the platform of the i-th generated row |
| Api.RecordPlatforms | src/app/api/content/route.ts:64-69 | a record's platforms have no repeats, are exactly the platforms of its generated rows, and follow the order in which the rows first name them |
| Utils.GetPlatforms | src/lib/utils.ts:38-47 | the registry holds four platforms with distinct ids, Twitter 280, Xiaohongshu 1000, Zhihu 2000 and Weibo 280 characters |
| Utils.Find | src/lib/utils.ts:38-47 | a found platform is in the list and has the id asked for; none is found only when no platform has that id |
| Utils.RegisteredIff | src/lib/utils.ts:38-43 | an id is registered exactly when it is one of the four known ids |
| Utils.RegisteredMaxLength | src/lib/utils.ts:38-43 | each known id finds its own registry entry and no other id does |
| Utils.TruncateText | src/lib/utils.ts:34-36 | text within the budget is returned unchanged; longer text keeps its first `maxLength` characters (none for a negative budget) and gains `...` |
| Utils.FormatBytes | src/lib/utils.ts:49-50 | zero bytes reads `0 Bytes`; any other size is the supplied rendering |
| Prompts.DefaultPrompt | src/lib/prompts.ts:51-68 | a default prompt exists exactly for the four registry ids, and its user prompt holds the `{content}` slot |
| Prompts.ListOrEmpty | src/lib/prompts.ts:30-48 | a failed store read yields the empty list; a successful one its rows |
| Prompts.SavePrompt | src/lib/prompts.ts:14-28 | the new prompt id is passed back on success, and the store's failure is passed on unchanged |
| Prompts.DefaultSlotOnce | src/lib/prompts.ts:54-66 | every default user prompt has exactly one `{content}` slot, so filling it puts the content once between the fixed texts, and no `{maxLength}` slot |
| Prompts.LiteralLimits | src/lib/prompts.ts:54-66 | the twitter, xiaohongshu and weibo prompts carry the literal limits 280, 1000 and 2000, and the registry's weibo budget is 280, not the prompt's 2000 |
| OpenRouter.DefaultPairEmbeds | src/lib/openrouter.ts:136-152 | each registered platform's default user prompt contains both the content and the length budget |
| OpenRouter.GetDefaultPrompts | src/lib/openrouter.ts:127-159 | fails exactly for an unregistered id, naming it; otherwise the platform's own system prompt and a user prompt holding the content and the platform's budget |
| OpenRouter.TwitterZhihuSystemsDiffer | src/lib/openrouter.ts:137-148 | different platforms get different system prompts |
| OpenRouter.TemplateBudget | src/lib/openrouter.ts:168-169 | the budget is the registry's for a registered platform and 2000 otherwise |
| OpenRouter.ProcessCustomPrompt | src/lib/openrouter.ts:162-178 | the custom system prompt is kept as it is |
| OpenRouter.CustomContentSlot | src/lib/openrouter.ts:172 | a template with one `{content}` slot and brace-free text around it becomes that text with the content in the slot |
| OpenRouter.CustomBudgetSlot | src/lib/openrouter.ts:168-175 | a template with one `{maxLength}` slot gets its platform's registry budget there, or 2000 for an unregistered platform |
| OpenRouter.BudgetInsideContent | src/lib/openrouter.ts:172-175 | the substitutions run in order: a `{maxLength}` brought in by the content is replaced as well |
| OpenRouter.Compose | src/lib/openrouter.ts:193-201 | two messages, system then user, carrying the custom pair when a custom prompt is given and the default pair otherwise |
| OpenRouter.GenerateOptimizedContent | src/lib/openrouter.ts:181-215 | an unregistered target fails with `不支持的平台` whatever the service says; otherwise a string reply is returned, a non-string reply becomes `生成内容失败，请重试`, and a failure is passed on |
| OpenRouter.GenerateContentIgnoresTemperature | src/lib/openrouter.ts:243-250 | the temperature has no effect and the model is the first model option |
| OpenRouter.DisplayName | src/lib/openrouter.ts:221-223 | `twitter` reads Twitter, `xiaohongshu` reads 小红书, and any other id is shown as it is |
| OpenRouter.OptimizationTexts | src/lib/openrouter.ts:225-237 | the system text names the platform; the user text names it and holds the content |
| OpenRouter.FormatContentOptimizationPrompt | src/lib/openrouter.ts:220-240 | a system and a user message, both naming the platform, the user message holding the content |
| ChatInput.Submitted | src/components/features/ChatInput.tsx:38-39 | a text is handed on exactly when the button is enabled (the trimmed text is non-blank and no reply is loading), and it has no white space at either end |
| ChatInput.SubmittedKeepsVisible | src/components/features/ChatInput.tsx:38-39 | the handed-on text has the same visible characters in the same order as the typed text |
| ChatInput.Box.constructor | src/components/features/ChatInput.tsx:20-21 | the box starts empty and outside a composition |
| ChatInput.Box.Type | src/components/features/ChatInput.tsx:92 | typing replaces the text and leaves the composition flag |
| ChatInput.Box.CompositionStart | src/components/features/ChatInput.tsx:94 | a composition sets the flag and keeps the text |
| ChatInput.Box.CompositionEnd | src/components/features/ChatInput.tsx:95 | the end of a composition clears the flag and keeps the text |
| ChatInput.Box.Submit | src/components/features/ChatInput.tsx:35-47 | the handed-on text is `Submitted` of the old text; a sent text empties the box, otherwise it is unchanged |
| ChatInput.Box.KeyDown | src/components/features/ChatInput.tsx:49-55 | only Enter without Shift outside a composition submits; any other key sends nothing and changes nothing |
| ChatInterface.NonEmptyTexts | src/components/features/ChatInterface.tsx:19-21 | only text parts with non-empty text are kept |
| ChatInterface.ContentToStringSplits | src/components/features/ChatInterface.tsx:12-23 | when no text part holds a newline, splitting the flattened content on newlines gives back the non-empty texts |
| ChatInterface.FirstQuotedNoneIff | src/components/features/ChatInterface.tsx:32-33 | the quoted-span pattern fails exactly when no quote character occurs again after itself |
| ChatInterface.FirstQuotedInfix | src/components/features/ChatInterface.tsx:32-33 | the captured span is a piece of the text |
| ChatInterface.FirstQuotedOf | src/components/features/ChatInterface.tsx:32-33 | after quote-free text, a span opened and closed by the same quote character is the capture |
| ChatInterface.PhraseAt | src/components/features/ChatInterface.tsx:40 | a phrase found is one of the phrases and starts the text; none is found only when no phrase starts it |
| ChatInterface.LeadInRestSuffix | src/components/features/ChatInterface.tsx:40-41 | the text after a lead-in phrase is a suffix of the reply |
| ChatInterface.LeadInAbsent | src/components/features/ChatInterface.tsx:40-41 | text holding none of the phrases' first characters matches no lead-in |
| ChatInterface.BeforePhraseFound | src/components/features/ChatInterface.tsx:48-51 | when a pleasantry occurs, the split has a first piece |
| ChatInterface.BeforePhrasePrefix | src/components/features/ChatInterface.tsx:51-52 | the first piece of the split is a prefix of the reply |
| ChatInterface.BeforePhraseSkip | src/components/features/ChatInterface.tsx:51 | text free of the phrases' first characters followed by a phrase splits into exactly that text first |
| ChatInterface.LongestSpec | src/components/features/ChatInterface.tsx:59 | the reduction picks a paragraph of greatest length, and among those the last one |
| ChatInterface.TrimKeepsInfix | src/components/features/ChatInterface.tsx:36 | trimming a piece of the reply gives a piece of the reply |
| ChatInterface.QuoteRule | src/components/features/ChatInterface.tsx:32-37 | the rule gives a piece of the reply, and gives nothing exactly when no quote is closed or the first quoted span is empty |
| ChatInterface.LeadInRule | src/components/features/ChatInterface.tsx:40-45 | the rule gives a piece of the reply |
| ChatInterface.PleasantryRule | src/components/features/ChatInterface.tsx:48-53 | the rule applies exactly when one of the three pleasantries occurs, and gives a piece of the reply |
| ChatInterface.PleasantryRuleOf | src/components/features/ChatInterface.tsx:48-53 | when a pleasantry occurs, the rule gives the trimmed text before the leftmost one |
| ChatInterface.PleasantryFound | src/components/features/ChatInterface.tsx:48-51 | an occurring pleasantry makes the split succeed |
| ChatInterface.ParagraphRule | src/components/features/ChatInterface.tsx:56-60 | the rule applies exactly when there is more than one non-blank paragraph, and then gives one of them trimmed, a piece of the reply |
| ChatInterface.LongestParagraphInfix | src/components/features/ChatInterface.tsx:56-59 | the paragraph picked is one of the paragraphs and a piece of the reply |
| ChatInterface.ExtractText | src/components/features/ChatInterface.tsx:29-62 | the cascade's result is always a piece of the flattened reply |
| ChatInterface.ExtractKeyContent | src/components/features/ChatInterface.tsx:26-30 | the extracted content never invents text: it is a piece of the flattened reply; an absent or empty reply gives the empty text |
| ChatInterface.QuoteFirst | src/components/features/ChatInterface.tsx:35-37 | a non-empty quoted span decides the result, trimmed, whatever follows |
| ChatInterface.LeadInSecond | src/components/features/ChatInterface.tsx:35-45 | when the quote rule does not apply (no closed quote, or an empty first span), non-empty text after the leftmost lead-in decides the result, trimmed |
| ChatInterface.PleasantryThird | src/components/features/ChatInterface.tsx:35-53 | when neither the quote rule nor the lead-in rule applies, a pleasantry decides the result |
| ChatInterface.ParagraphFourth | src/components/features/ChatInterface.tsx:55-62 | when none of the first three rules applies, the result is the longest non-blank paragraph trimmed (the last of equally long ones) if there are two or more, else the reply verbatim |
| ChatInterface.QuotedSpanKept | src/components/features/ChatInterface.tsx:32-37 | a quoted span after quote-free text, with no white space at its ends, is extracted exactly |
| ChatInterface.FirstLeadInKept | src/components/features/ChatInterface.tsx:40-45 | quote-free text after `以下是`, with no white space at its ends, is extracted exactly |
| ChatInterface.Restored | src/components/features/ChatInterface.tsx:156-179 | a saved history follows a fresh system message; without one the transcript is the system message and the greeting |
| ChatInterface.LastAssistant | src/components/features/ChatInterface.tsx:161-163 | the message found is an assistant message of the list; none is found only when the list has no assistant message |
| ChatInterface.AsSent | src/components/features/ChatInterface.tsx:207-210 | one message per message, same roles, every content a string |
| ChatInterface.RestoreAfterTurn | src/components/features/ChatInterface.tsx:154-175 | after a successful turn the saved history restores the same non-system transcript and the reply as the draft |
| ChatInterface.Session.constructor | src/components/features/ChatInterface.tsx:87-93 | an empty transcript, no draft, no error, not loading |
| ChatInterface.Session.Initialize | src/components/features/ChatInterface.tsx:129-180 | the transcript is `Restored` with the system prompt built from the current or initial content; a restored assistant reply becomes the draft and is passed to the parent |
| ChatInterface.Session.SendMessage | src/components/features/ChatInterface.tsx:190-245 | the user message is appended at once; a reply is appended, saved without system messages and becomes the draft; a failure keeps the user message, records the error and saves nothing |
| ChatInterface.Session.Receive | src/components/features/ChatInterface.tsx:213-244 | the reply or failure of one turn, as in `SendMessage`, and loading ends either way |
| ChatInterface.Session.ApplyChanges | src/components/features/ChatInterface.tsx:248-258 | with a parent callback and a draft the draft is passed on and success shown; otherwise nothing changes |
| HistoryStore.WithoutSystem | src/components/features/ChatInterface.tsx:110 | no system message is kept, and every other message is |
| HistoryStore.WithoutSystemAppend | src/components/features/ChatInterface.tsx:228 | dropping system messages distributes over concatenation and keeps a list without them unchanged |
| HistoryStore.Store.constructor | src/components/features/ChatInterface.tsx:118-126 | no history is saved yet |
| HistoryStore.Store.Save | src/components/features/ChatInterface.tsx:107-115 | the key now holds the list without system messages, and the store still holds no system message |
| ContentChatInterface.Texts | src/components/features/ContentChatInterface.tsx:27-29 | at most one text per part: the texts of the text parts, empty ones included |
| ContentChatInterface.ContentToStringConcat | src/components/features/ContentChatInterface.tsx:22-31 | flattening distributes over concatenation of part lists: nothing is put between parts |
| ContentChatInterface.SeparatorsDiffer | src/components/features/ContentChatInterface.tsx:27-30 | two text parts flatten to `a + "\n" + b` in the other chat and to `a + b` here |
| ContentChatInterface.LeadInsShorter | src/components/features/ContentChatInterface.tsx:48 | this copy's lead-in list is the other copy's first eleven phrases, so `我已经` is not among them |
| ContentChatInterface.ExtractText | src/components/features/ContentChatInterface.tsx:37-62 | the cascade (quote, lead-in, longest paragraph, verbatim) gives a piece of the flattened reply |
| ContentChatInterface.ExtractKeyContent | src/components/features/ContentChatInterface.tsx:34-37 | an absent reply gives the empty text; otherwise the result is a piece of the flattened reply |
| ContentChatInterface.QuoteFirst | src/components/features/ContentChatInterface.tsx:39-45 | a non-empty first quoted span decides the result, trimmed |
| ContentChatInterface.LeadInSecond | src/components/features/ContentChatInterface.tsx:47-53 | when the quote rule does not apply, non-empty text after the leftmost of this copy's lead-ins decides the result, trimmed |
| ContentChatInterface.ParagraphThird | src/components/features/ContentChatInterface.tsx:55-62 | when neither the quote nor the lead-in rule applies, whatever pleasantries the reply holds, the result is the longest non-blank paragraph trimmed if there are two or more, else the reply verbatim |
| ContentChatInterface.PleasantryDivergence | src/components/features/ContentChatInterface.tsx:55-60 | on `新文案\n\n如果你需要请留言` the other chat extracts `新文案` and this one the longer pleasantry paragraph |
| ContentChatInterface.PleasantryCut | src/components/features/ChatInterface.tsx:48-53 | on that reply the other chat's pleasantry rule gives the first paragraph |
| ContentChatInterface.LongestParagraph | src/components/features/ContentChatInterface.tsx:56-60 | on that reply the paragraph rule gives the second, longer paragraph |
| ContentChatInterface.Turn | src/components/features/ContentChatInterface.tsx:165-205 | the transcript grows by the user message and then the reply, or the apology when the request failed |
| ContentChatInterface.TurnPersisted | src/components/features/ContentChatInterface.tsx:186-208 | every turn, failed or not, is saved, and a reload shows the user message and the answer |
| ContentChatInterface.RawVersusExtracted | src/components/features/ContentChatInterface.tsx:193-196 | on the reply `"Hi"` the other chat drafts the raw text and this one hands on `Hi` |
| ContentChatInterface.Session.constructor | src/components/features/ContentChatInterface.tsx:71-74 | closed, with an empty input and transcript, not loading |
| ContentChatInterface.Session.SetOpen | src/components/features/ContentChatInterface.tsx:228 | only the open flag changes |
| ContentChatInterface.Session.SetMessage | src/components/features/ContentChatInterface.tsx:72 | only the input text changes |
| ContentChatInterface.Session.Initialize | src/components/features/ContentChatInterface.tsx:122-153 | only with content, an open dialog and an empty transcript, the transcript becomes the system prompt followed by the saved history or the greeting; otherwise it is unchanged |
| ContentChatInterface.Session.SendMessage | src/components/features/ContentChatInterface.tsx:156-212 | blank input or a request in flight changes nothing; otherwise the turn is appended and saved, the input cleared, and on success the extracted text is handed to the parent |
| ContentChatInterface.Session.Send | src/components/features/ContentChatInterface.tsx:160-211 | the accepted send: turn appended, history saved, input cleared, loading over, the extracted text handed on only on success |
| ContentChatInterface.Session.KeyDown | src/components/features/ContentChatInterface.tsx:215-220 | Enter without Shift sends as `SendMessage` does; any other key changes nothing |
| ContentChatInterface.AsSent | src/components/features/ContentChatInterface.tsx:174-177 | one message per message, in order, each keeping its role, its content flattened to text as the chat sends it |
| ContentGenerator.Fetched | src/components/content/ContentGenerator.tsx:40-53 | loading ends either way; a reply replaces the list, a failure keeps it and records `获取内容失败` or the thrown message |
| ContentGenerator.Generated | src/components/content/ContentGenerator.tsx:55-103 | generating ends either way; the saved item goes first and the form is reset only when both requests succeed; a failed generate or save keeps list and form and records its own error |
| ContentGenerator.Deleted | src/components/content/ContentGenerator.tsx:105-119 | a confirmed delete keeps exactly the items with another id; a failure keeps the list and records the error |
| ContentGenerator.DeleteRemovesOnlyId | src/components/content/ContentGenerator.tsx:115 | after a confirmed delete no item has the id, every item with another id remains, and deleting again changes nothing |
| ContentGenerator.GenerateThenDelete | src/components/content/ContentGenerator.tsx:95-115 | deleting a freshly generated item whose id was new gives back the list as it was |
| ContentRecentRoute.TextViews | src/app/api/content/recent/route.ts:60-65 | one entry per generated row, in order, with its id, platform, text and the `{ id, name }` of its stored custom prompt |
| ContentRecentRoute.ToViews | src/app/api/content/recent/route.ts:47-67 | one view per record, in order |
| ContentRecentRoute.Get | src/app/api/content/recent/route.ts:5-69 | fails, with 401, exactly when the token gate fails; otherwise one view per record of the caller |
| ContentRecentRoute.GetListsAllOwn | src/app/api/content/recent/route.ts:25-67 | the history lists every record of the caller and nothing else, newest first, with one text entry per generated row |
| ContentRecentRoute.ViewsAreOwn | src/app/api/content/recent/route.ts:25-28 | every view is of one of the caller's records |
| ContentRecentRoute.ViewsCoverOwn | src/app/api/content/recent/route.ts:25-28 | every record of the caller has a view |
| ContentRecentRoute.ViewsSorted | src/app/api/content/recent/route.ts:29-31 | views of newest-first records are newest first |
| ContentRoute.Mine | src/app/api/content/route.ts:34-52 | the caller's records are exactly the records owned by the caller (as a multiset), newest first |
| ContentRoute.Views | src/app/api/content/route.ts:64-78 | one view per record, in order, each with its platforms de-duplicated |
| ContentRoute.Get | src/app/api/content/route.ts:7-88 | fails, with 401, exactly when the token gate fails |
| ContentRoute.PageOfMine | src/app/api/content/route.ts:28-55 | page `page` of `limit` holds at most `limit` of the caller's own records, newest first, and the owned count is the total |
| ContentRoute.PageOfSorted | src/app/api/content/route.ts:28-55 | any page of a newest-first arrangement of the caller's records is owned by the caller and newest first |
| ContentRoute.MineOwned | src/app/api/content/route.ts:34-37 | every listed record is one of the store's records and owned by the caller |
| ContentRoute.GetShowsOwnPage | src/app/api/content/route.ts:28-88 | a listing holds at most `limit` of the caller's own records, newest first; each record's platforms are duplicate-free and exactly the platforms of its texts; `pages * limit` covers the total |
| ContentRoute.SavedStep | src/app/api/content/route.ts:164-206 | the rows of the first `i + 1` platforms are the rows of the first `i` followed by the row of platform `i` |
| ContentRoute.SavedRowsSpec | src/app/api/content/route.ts:164-209 | a save creates at most one row per listed platform, each titled `<title> - <platform>` with that platform's text; a listed platform with a non-empty text whose insert succeeds gets a row |
| ContentRoute.SaveRows | src/app/api/content/route.ts:163-209 | the insert loop appends exactly the rows of the specification, numbered from the next id, and counts them; nothing else in the store changes |
| ContentRoute.SaveTurn | src/app/api/content/route.ts:164-206 | one turn of the insert loop extends the saved rows by the row of one platform |
| ContentRoute.SaveOne | src/app/api/content/route.ts:165-205 | a platform without text, or whose insert fails, adds nothing; otherwise exactly its row is appended |
| ContentRoute.Post | src/app/api/content/route.ts:99-217 | 401 from the token gate, 400 without a title or platforms, 400 without generated texts, each leaving the store unchanged; otherwise one record and its rows are added and `generatedCount` is the number of rows |
| ContentRoute.Save | src/app/api/content/route.ts:151-216 | a valid save adds one record owned by the caller and then exactly its rows, and answers the record id and the row count |
| ContentRoute.ReplacementRows | src/app/api/content/route.ts:305-316 | one row per supplied entry, in order, attached to the record, with the entry's platform, text and prompt id |
| ContentRoute.Put | src/app/api/content/route.ts:228-324 | 401, then 400 without id, then 404 for a missing or foreign record, then 400 without title or platforms, each leaving the store unchanged; otherwise the title and original text are updated and, when a list is given, all of the record's texts are replaced by it |
| ContentRoute.PutReplacesAll | src/app/api/content/route.ts:296-319 | after a replacing update the record's texts are exactly the supplied list, in order |
| ContentRoute.Delete | src/app/api/content/route.ts:335-388 | 401, then 400 without id, then 404 for a missing or foreign record, each leaving the store unchanged; otherwise the record and its texts are removed and nothing else |
| ContentRoute.DeleteRemovesOnlyThat | src/app/api/content/route.ts:379-384 | after a delete the record is not found and has no texts, while every other record and every other record's text stays |
| ContentRoute.PutGenerated | src/app/api/content/route.ts:489-531 | 401 without a session user, 400 without id, 403 for a missing or foreign text, each leaving the store unchanged; otherwise only that text's title and content change, an empty new value keeping the old one |
| ContentSearchRoute.Matching | src/app/api/content/search/route.ts:47-53 | exactly the caller's records whose title contains the query: every result is one, and every such record is a result |
| ContentSearchRoute.Contents | src/app/api/content/search/route.ts:83 | the texts of the rows, one per row, in order |
| ContentSearchRoute.Hits | src/app/api/content/search/route.ts:72-85 | one hit per found record, in order, with its de-duplicated platforms and its size |
| ContentSearchRoute.Get | src/app/api/content/search/route.ts:23-87 | fails, with 401, exactly when the token gate fails; otherwise one hit per matching record (query default '') |
| ContentSearchRoute.GetFindsOwnMatches | src/app/api/content/search/route.ts:44-87 | every hit is one of the caller's records whose title contains the query, and hits come newest first |
| ContentSearchRoute.HitsOfSorted | src/app/api/content/search/route.ts:47-85 | the hits of any newest-first arrangement of the matching records match and are newest first |
| ContentSearchRoute.HitsOfMatches | src/app/api/content/search/route.ts:72-85 | hits made from matching records carry those records' ids and titles |
| ContentSearchRoute.HitsSorted | src/app/api/content/search/route.ts:54-56 | hits keep the newest-first order of the records |
| ContentSearchRoute.FoundMatch | src/app/api/content/search/route.ts:47-53 | every record of a rearrangement of the matches is one of the caller's records whose title contains the query |
| ContentSearchRoute.EmptyQueryMatchesAll | src/app/api/content/search/route.ts:44-53 | with the default empty query the search lists all of the caller's records |
| ContentSearchRoute.SizeBounds | src/app/api/content/search/route.ts:83 | the size is at least each text's length, and zero exactly when every text is empty |
| InputModes.ToProcess | src/app/content/page.tsx:165-173 | document mode processes the extracted text; link mode the fetched text, or the lead "从链接获取内容: " and the address while nothing was fetched; every other mode the typed text |
| InputModes.ChoosingKeepsText | src/app/content/page.tsx:176-190 | emptying the inputs of the other modes never changes the text the chosen mode processes; with no mode chosen the text is empty |
| InputModes.LinkNeverEmpty | src/app/content/page.tsx:168-169 | link mode always has a non-empty text to process |
| ContentPage.ModelIsFirstOption | src/app/content/page.tsx:45 | the page's fixed model is the first of the model options |
| ContentPage.NameOrUndefined | src/app/content/page.tsx:226 | a registered platform's name, or "undefined" for an unregistered id |
| ContentPage.PromptFor | src/app/content/page.tsx:213 | a platform's custom prompt when its entry holds one, and the default prompts (none) for a missing or empty entry |
| ContentPage.UnregisteredFails | src/app/content/page.tsx:213-226 | with the library generator, generating for an unregistered platform fails with the unsupported-platform error, whatever the service answers |
| ContentPage.PromptsFor | src/app/content/page.tsx:115-134 | the prompt map has exactly the selected platforms as keys, keeps each previous choice and gives a newly selected platform the default (none) |
| ContentPage.ChoiceSurvives | src/app/content/page.tsx:115-141 | a prompt chosen for a platform survives every later selection that keeps that platform |
| ContentPage.PromptsForIdempotent | src/app/content/page.tsx:115-134 | re-selecting the same platforms leaves the prompt map unchanged |
| ContentPage.FailAlerts | src/app/content/page.tsx:224-227 | at most one alert per platform, none when every platform succeeds, and each alert names a platform whose generation failed |
| ContentPage.MergedSpec | src/app/content/page.tsx:206-230 | after a generation run the drafts are the old drafts plus the succeeded platforms; a succeeded platform holds its new text and every other draft is unchanged |
| ContentPage.DraftsOf | src/app/content/page.tsx:257-265 | the saved drafts have exactly the saved platforms as keys |
| ContentPage.PromptIds | src/app/content/page.tsx:280-285 | a prompt id (or null) is sent for exactly the chosen platforms that are saved |
| ContentPage.SaveError | src/app/content/page.tsx:305-323 | no error exactly when the server answered ok with a non-empty content id |
| ContentPage.Destination | src/app/content/page.tsx:314-320 | the browser goes to the saved content's page exactly when there is no error |
| ContentPage.Saved | src/app/content/page.tsx:260-265 | every saved platform has a non-empty draft |
| ContentPage.SavedCovered | src/app/content/page.tsx:257-285 | the request saves exactly the selected platforms with a non-empty draft, each with its own draft, and names a prompt for every saved platform when the prompt map follows the selection |
| ContentPage.FollowSelection | src/app/content/page.tsx:119-131 | the two loops over the prompt map give exactly the prompt map of the selection |
| ContentPage.GenerateAll | src/app/content/page.tsx:206-228 | the generation loop gives exactly the merged drafts and the alerts of the failed platforms |
| ContentPage.SavedDrafts | src/app/content/page.tsx:257-265 | the collection loop gives exactly the saved platforms, in selection order, and their drafts |
| ContentPage.RegenerateOne | src/app/content/page.tsx:346-364 | a success replaces that one draft with no alert; a failure keeps the drafts and alerts |
| ContentPage.RegenerateIsOneRun | src/app/content/page.tsx:337-368 | regenerating one platform is a generation run over that platform alone |
| ContentPage.Page.constructor | src/app/content/page.tsx:42-66 | every field starts empty, unselected or false |
| ContentPage.Page.ProcessFiles | src/app/content/page.tsx:80-108 | no file empties the extracted text; otherwise the first file's text, or an alert with the text kept |
| ContentPage.Page.FileSelect | src/app/content/page.tsx:110-113 | the files are kept, document mode is chosen and the file effect runs |
| ContentPage.Page.PlatformChange | src/app/content/page.tsx:115-134 | the selection is stored and the prompt map follows it |
| ContentPage.Page.SelectPrompt | src/app/content/page.tsx:136-141 | exactly one platform's prompt choice is replaced |
| ContentPage.Page.FetchLink | src/app/content/page.tsx:144-162 | an empty address only alerts; a fetched text becomes both the link text and the extracted text; a failure empties the link text and alerts |
| ContentPage.Page.InputTypeSelect | src/app/content/page.tsx:176-190 | the mode is chosen, the inputs of every other mode are emptied, and the text to process is the one the chosen mode had |
| ContentPage.Page.Generate | src/app/content/page.tsx:192-233 | no platform, or a blank text, only alerts; otherwise the drafts become the merged drafts of one generation per selected platform and the alerts name the failed ones |
| ContentPage.Page.Save | src/app/content/page.tsx:235-327 | the guards in order (signed in, some draft, a non-blank title, a selected platform with a draft), then a request with the trimmed title, the saved platforms, their drafts and prompt ids, and the server's error or the content page |
| ContentPage.Page.ContentUpdate | src/app/content/page.tsx:329-334 | exactly one platform's draft is replaced by the edited text |
| ContentPage.Page.Regenerate | src/app/content/page.tsx:337-368 | a blank text only alerts; otherwise a success replaces that one draft and a failure alerts, and the busy flags are cleared |
| ContentPage.Page.OpenChat | src/app/content/page.tsx:384-391 | only a registered platform opens the chat, under its name and id |
| ContentPage.Page.ChatOptimizedContent | src/app/content/page.tsx:394-402 | the chat's text replaces the active platform's draft when there is one, and nothing changes otherwise |
| ContentPage.CopyText | src/app/content/page.tsx:371-375 | the clipboard gets a platform's draft exactly when the draft is non-empty |
| ContentPage.ExportFile | src/app/content/page.tsx:508-515 | an export happens exactly when the platform has a non-empty draft and is registered, with the draft as text and "<name>_内容_<date>" as file name |
| UploadPage.MergeOne | src/app/upload/page.tsx:217-221 | after a regeneration the requested platform holds the route's result for it, and every other platform keeps its draft |
| UploadPage.MergeOneIdempotent | src/app/upload/page.tsx:217-221 | regenerating a platform twice with the same answer is the same as regenerating it once |
| UploadPage.EnabledPassesGuards | src/app/upload/page.tsx:513-519 | with a mode chosen, an enabled generate button always yields a non-empty text to process; with no mode chosen the text is empty exactly when the typed text is |
| UploadPage.Page.constructor | src/app/upload/page.tsx:31-47 | every field starts empty or false, and the model is the first model option |
| UploadPage.Page.ProcessFiles | src/app/upload/page.tsx:52-83 | no file empties the extracted text; otherwise the first file's text, or an alert with the text kept, and processing ends |
| UploadPage.Page.FetchLink | src/app/upload/page.tsx:86-103 | an empty address only alerts; a fetched text becomes the link text and nothing else; a failure empties the link text and alerts |
| UploadPage.Page.FileSelect | src/app/upload/page.tsx:105-108 | the files are kept and document mode is chosen |
| UploadPage.Page.PlatformChange | src/app/upload/page.tsx:110-112 | the selection is stored as given |
| UploadPage.Page.ModelChange | src/app/upload/page.tsx:114-116 | the model is stored as given |
| UploadPage.Page.FileName | src/app/upload/page.tsx:152 | the request names the first file exactly when there is a file |
| UploadPage.Page.Generate | src/app/upload/page.tsx:128-175 | no platform, or an empty text (not trimmed), only alerts; otherwise one request for all selected platforms whose results replace the whole draft map, or whose failure alerts and keeps it |
| UploadPage.Page.Regenerate | src/app/upload/page.tsx:189-232 | one request for the one platform, with no check of the text; the result replaces that platform's draft only, or the failure alerts |
| UploadPage.Page.OptimizeWithAI | src/app/upload/page.tsx:235-242 | only a registered platform opens the chat, under its name and id |
| UploadPage.Page.OptimizedContent | src/app/upload/page.tsx:245-250 | the chat's text replaces the draft under the active id, with no check of the id |
| UploadPage.Page.InputTypeSelect | src/app/upload/page.tsx:252-266 | the mode is chosen, the inputs of every other mode are emptied, and the text to process is the one the chosen mode had |
| UploadPage.Page.CloseMode | src/app/upload/page.tsx:342 | closing an input panel only resets the mode, so the page then processes the typed text |
| FetchUrlRoute.Found | src/app/api/fetch-url/route.ts:37-49 | what each of the seven selectors finds, in selector order |
| FetchUrlRoute.PickFirstLong | src/app/api/fetch-url/route.ts:48-58 | the first match whose trimmed text is longer than 100 is the container text, whatever follows it |
| FetchUrlRoute.PickNoLong | src/app/api/fetch-url/route.ts:48-60 | without a match longer than 100, the trimmed text of the last match is kept, or the empty text when nothing matches |
| FetchUrlRoute.LastFoundTail | src/app/api/fetch-url/route.ts:48-60 | the last match of a list is the last match of its tail, or its head when the tail has none |
| FetchUrlRoute.ScanSelectors | src/app/api/fetch-url/route.ts:34-60 | the selector loop yields exactly the container text of the search specification |
| FetchUrlRoute.Scan | src/app/api/fetch-url/route.ts:48-60 | the loop over what the selectors found, with its early exit on a text longer than 100, yields the container text of the specification |
| FetchUrlRoute.BodyTextShape | src/app/api/fetch-url/route.ts:65-69 | the body fallback neither starts nor ends with white space and holds no two white-space characters in a row |
| FetchUrlRoute.CollapseLast | src/app/api/fetch-url/route.ts:69 | collapsing white-space runs keeps whether the text ends with white space |
| FetchUrlRoute.Get | src/app/api/fetch-url/route.ts:8-93 | an absent or empty url gives 400; a failed request gives 500 with the error text; otherwise the trimmed title, the content and the url |
| FetchUrlRoute.FirstLongContainer | src/app/api/fetch-url/route.ts:48-63 | a container text longer than 100 found by the first selector that has one is the content |
| FetchUrlRoute.LastContainer | src/app/api/fetch-url/route.ts:48-70 | without a long container, the last container's trimmed text is the content when it has 50 characters or more, and the body fallback otherwise |
| FetchUrlRoute.StatusReported | src/app/api/fetch-url/route.ts:81-88 | a client error's text starts with "请求失败: ", and ends with the status only when the request had a response |
| FileProcessing.ReadText | src/lib/fileProcessing.ts:155-173 | a text read succeeds exactly when the reader loaded a non-empty result, and gives that result |
| FileProcessing.ReadBuffer | src/lib/fileProcessing.ts:178-196 | a buffer read fails only on a reader error |
| FileProcessing.ToLowerIdempotent | src/lib/fileProcessing.ts:20 | lower-casing a lower-cased name changes nothing |
| FileProcessing.KindIgnoresCase | src/lib/fileProcessing.ts:20-77 | upper-case letters in a file name do not change the branch the file takes |
| FileProcessing.PdfNameBeforeHtmlType | src/lib/fileProcessing.ts:33-56 | the tests run in source order: a name ending in ".pdf" is read as a PDF even when the type says HTML |
| FileProcessing.ItemTexts | src/lib/fileProcessing.ts:217-223 | one string per item, in order: the item's text, or "" for an item without text |
| FileProcessing.PageTextSplits | src/lib/fileProcessing.ts:217-224 | without spaces inside the items, a page's text splits back at single spaces into the items' strings |
| FileProcessing.AccumulatedPrefix | src/lib/fileProcessing.ts:213-228 | the text after the first pages is a prefix of the text after all pages |
| FileProcessing.SegmentInPlace | src/lib/fileProcessing.ts:213-228 | page k's marker "--- 第 k 页 ---" and text sit right after the text of the pages before it |
| FileProcessing.AccumulatedStart | src/lib/fileProcessing.ts:227 | a non-empty accumulation opens with the first page's line break and dash |
| FileProcessing.PdfBlankIff | src/lib/fileProcessing.ts:230 | the trimmed accumulation is empty, and the "no text" message is answered, exactly when the document has no pages |
| FileProcessing.TrimmedStart | src/lib/fileProcessing.ts:227-230 | the trimmed accumulation of a document with pages starts with its first marker's dash |
| FileProcessing.ExtractPdfPages | src/lib/fileProcessing.ts:210-230 | the page loop followed by the trim-or-fallback gives exactly the specified PDF text |
| FileProcessing.ExtractPdfText | src/lib/fileProcessing.ts:202-235 | succeeds exactly when the buffer was read and the document parsed, and then answers the pages' text |
| FileProcessing.ExtractWordText | src/lib/fileProcessing.ts:241-253 | succeeds exactly when the buffer was read and the text extracted, answering that text or the fallback for an empty one |
| FileProcessing.ExtractTextFromImage | src/lib/fileProcessing.ts:106-127 | succeeds exactly when the image was read and recognised, answering the recognised text as it is when it has a visible character, and the fallback otherwise |
| FileProcessing.TrimAt | src/lib/fileProcessing.ts:269 | each character of a trimmed text is the corresponding character after the leading white space |
| FileProcessing.TrimSingleSpaced | src/lib/fileProcessing.ts:268-269 | trimming keeps a text single-spaced |
| FileProcessing.HtmlTextShape | src/lib/fileProcessing.ts:267-269 | stripped HTML neither starts nor ends with white space, holds no white space but ' ', and no two spaces in a row |
| FileProcessing.HtmlTextVisible | src/lib/fileProcessing.ts:267-269 | stripping HTML keeps every visible character of the tag-free text, in order |
| FileProcessing.Failure | src/lib/fileProcessing.ts:38 | an extractor's error text names the lower-cased file name right after its lead |
| FileProcessing.ExtractTextFromFile | src/lib/fileProcessing.ts:18-80 | only the plain-text and Markdown branches can reject, and they answer the text read; every other branch answers a text |
| FileProcessing.PdfFailureNamed | src/lib/fileProcessing.ts:33-39 | a failing PDF parse is reported in-band with the lower-cased file name |
| FileProcessing.PdfLoaded | src/lib/fileProcessing.ts:33-35 | a loaded PDF answers its pages' text, and the "no text" message only for a document without pages |
| FileProcessing.UnsupportedNamed | src/lib/fileProcessing.ts:79 | any other file is refused in-band, naming its type |
| FileProcessing.FetchContentFromUrl | src/lib/fileProcessing.ts:85-101 | succeeds exactly when the proxy answered a non-empty content, which it returns; every failure is rethrown with the lead "无法从URL获取内容: " |
| FileUpload.DefaultsSupported | src/components/features/FileUpload.tsx:15-21 | every default accepted type, with each of its extensions, is one the text extraction supports |
| FileUpload.SliceEnd | src/components/features/FileUpload.tsx:28 | a slice end is clamped to the list: a non-negative end is capped at the length, a negative one counts from the back |
| FileUpload.DroppedBounds | src/components/features/FileUpload.tsx:28 | a drop keeps the files already there first, then the dropped ones, and never more than the maximum |
| FileUpload.DropKeepsFirst | src/components/features/FileUpload.tsx:22-28 | with the default maximum of one and one file present, a drop changes nothing |
| FileUpload.RemovedAt | src/components/features/FileUpload.tsx:35-37 | removal drops exactly the file at an in-range position, leaves the list alone past its end, and -1 drops the last file |
| FileUpload.Zone.constructor | src/components/features/FileUpload.tsx:24 | the list starts empty |
| FileUpload.Zone.OnDrop | src/components/features/FileUpload.tsx:26-31 | the dropped list replaces the files and is handed to the parent |
| FileUpload.Zone.RemoveFile | src/components/features/FileUpload.tsx:35-40 | the list minus the file at the clamped position replaces the files and is handed to the parent |
| FileUpload.Spliced | src/components/features/FileUpload.tsx:36-37 | the copy with the file at position k spliced out |
| FileUpload.ShiftLeft | src/components/features/FileUpload.tsx:37 | every element after position k moves one place to the left |
| GenerateRoute.SystemPromptFor | src/app/api/generate/route.ts:12-26 | a non-empty custom system prompt wins, then the platform's built-in prompt, then the generic sentence; the result is never empty |
| GenerateRoute.TableNonEmpty | src/app/api/generate/route.ts:12-20 | every built-in system prompt is non-empty |
| GenerateRoute.TableVersusRegistry | src/app/api/generate/route.ts:12-26 | the built-in table and the platform registry disagree: registered weibo gets the generic sentence, unregistered wechat has its own prompt |
| GenerateRoute.UserPromptFor | src/app/api/generate/route.ts:27-29 | without a custom user template, the fixed text naming the platform, ending with the content |
| GenerateRoute.UserPromptFirstMarker | src/app/api/generate/route.ts:28 | only the first `${content}` of a custom template is replaced by the content; later ones stay as they are |
| GenerateRoute.UserPromptNoMarker | src/app/api/generate/route.ts:28 | a custom template without the marker is sent as it is |
| GenerateRoute.GeneratePlatformContent | src/app/api/generate/route.ts:23-45 | a success is never empty (an empty reply becomes the retry text), and it fails exactly when the service fails |
| GenerateRoute.CustomFor | src/app/api/generate/route.ts:95-107 | a custom template is used exactly when the request names a prompt id for the platform and a stored prompt has that id, and it then carries that prompt's system and user prompts |
| GenerateRoute.GenerateStep | src/app/api/generate/route.ts:92-124 | visiting one more platform sets its results entry and queues its row, if any, last |
| GenerateRoute.ResultsCoverPlatforms | src/app/api/generate/route.ts:89-124 | every requested platform has exactly one results entry, holding its own outcome's text, and no other key is present |
| GenerateRoute.QueuedAreSuccesses | src/app/api/generate/route.ts:90-124 | exactly the successful platforms are queued, each with its own text, attached to the record |
| GenerateRoute.QueuedOnlySuccesses | src/app/api/generate/route.ts:109-119 | every queued row is of a requested platform that succeeded with that text |
| GenerateRoute.QueuedEverySuccess | src/app/api/generate/route.ts:109-119 | every requested platform that succeeded has a queued row with its text |
| GenerateRoute.QueuedAttached | src/app/api/generate/route.ts:114-119 | every queued row is attached to the record |
| GenerateRoute.AllFailedQueuesNothing | src/app/api/generate/route.ts:120-131 | when every platform fails nothing is queued, so no batch insert happens |
| GenerateRoute.GenerateAll | src/app/api/generate/route.ts:92-124 | the per-platform loop yields exactly the specified results and queued rows |
| GenerateRoute.GenerateOne | src/app/api/generate/route.ts:93-123 | one platform's results entry is its text, or "生成失败: " and the error, and it queues a row only on success |
| GenerateRoute.Post | src/app/api/generate/route.ts:47-138 | 401 without a session user, 400 without platforms, 400 without content and title, each leaving the store unchanged; otherwise one record (title default "未命名内容"), the results of every platform and one row per success |
| GenerateRoute.Generate | src/app/api/generate/route.ts:75-138 | an accepted request adds the record, then exactly the queued rows, and answers the results and the record id |
| PlatformPrompts.ReplaceSame | src/components/platforms/PlatformPrompts.tsx:69-70 | every prompt of the saved platform becomes the saved prompt; every other prompt stays in place |
| PlatformPrompts.UpsertSaves | src/components/platforms/PlatformPrompts.tsx:69-71 | after a save the list holds the saved prompt, still has at most one prompt per platform, and grows by one only for a new platform |
| PlatformPrompts.UpsertKeepsOthers | src/components/platforms/PlatformPrompts.tsx:69-71 | a save leaves the other platforms' prompts as they were, in their order |
| PlatformPrompts.FilterReplaced | src/components/platforms/PlatformPrompts.tsx:69-70 | replacing a platform's prompts does not change the prompts of other platforms |
| PlatformPrompts.UpsertIdempotent | src/components/platforms/PlatformPrompts.tsx:69-71 | saving the same prompt twice is the same as saving it once |
| PlatformPrompts.RemoveDeletes | src/components/platforms/PlatformPrompts.tsx:90 | after a delete no prompt of the platform is left, and every other prompt is kept |
| PlatformPrompts.Fetched | src/components/platforms/PlatformPrompts.tsx:36-49 | loading ends either way; a reply replaces the list, a failure keeps it and sets the error |
| PlatformPrompts.Submitted | src/components/platforms/PlatformPrompts.tsx:51-78 | on success the saved prompt is upserted, the error cleared, the form reset and editing ended; a failure keeps the list, the form and the editing prompt and sets the error |
| PlatformPrompts.Deleted | src/components/platforms/PlatformPrompts.tsx:80-94 | on success exactly the platform's prompts are removed; a failure only sets the error |
| PlatformPrompts.Edited | src/components/platforms/PlatformPrompts.tsx:96-102 | the prompt becomes the one edited and fills the form, and nothing else changes |
| PlatformPrompts.PanelPlatformsVersusRegistry | src/components/platforms/PlatformPrompts.tsx:15-20 | the editor offers wechat and not weibo |
| PlatformPromptsRoute.ForPlatform | src/app/api/platforms/prompts/route.ts:36-40 | exactly the caller's prompts for the platform: every result is one, and every such prompt is a result |
| PlatformPromptsRoute.ForPlatformSnoc | src/app/api/platforms/prompts/route.ts:36-40 | a prompt appended to the table is listed last for its owner and platform, and every other list is unchanged |
| PlatformPromptsRoute.Get | src/app/api/platforms/prompts/route.ts:6-46 | 400 without a platform, before the token is checked; then 401 from the token gate; otherwise the caller's prompts for the platform, newest created first |
| PlatformPromptsRoute.GetListsOwnForPlatform | src/app/api/platforms/prompts/route.ts:36-46 | every listed prompt is one of the caller's prompts for the requested platform |
| PlatformPromptsRoute.Post | src/app/api/platforms/prompts/route.ts:57-98 | 401 from the token gate, 400 unless name, system prompt, user prompt and platform are all non-empty, each leaving the store unchanged; otherwise exactly one new prompt owned by the caller |
| PlatformPromptsRoute.Put | src/app/api/platforms/prompts/route.ts:108-177 | 401, then 400 without id, then 400 for a missing field, then 404 for a missing or foreign prompt, each leaving the store unchanged; otherwise exactly that prompt's four editable fields are overwritten |
| PlatformPromptsRoute.Delete | src/app/api/platforms/prompts/route.ts:188-240 | 401, then 400 without id, then 404 for a missing or foreign prompt, each leaving the store unchanged; otherwise that prompt alone is removed |
| PlatformPromptsRoute.PostThenListed | src/app/api/platforms/prompts/route.ts:88-96 | a prompt just created shows up, last in table order, in its owner's list for its platform |
| PlatformPromptsRoute.PutOverwritesOnlyThat | src/app/api/platforms/prompts/route.ts:165-175 | after an update the prompt keeps its id, owner and creation time and carries exactly the new fields; every other prompt is as before |
| PlatformSelect.SyncInitial | src/components/features/PlatformSelect.tsx:14-18 | a non-empty initial selection replaces the current one; an empty one keeps it |
| PlatformSelect.ToggleMembership | src/components/features/PlatformSelect.tsx:20-41 | a click selects the platform exactly when it was not selected; in multi-select mode, or when deselecting, every other platform keeps its membership; in single-select mode a new platform becomes the whole selection |
| PlatformSelect.ToggleKeepsOthers | src/components/features/PlatformSelect.tsx:33-35 | when deselecting or in multi-select mode the other selected platforms keep their order |
| PlatformSelect.ToggleTwice | src/components/features/PlatformSelect.tsx:33-35 | in multi-select mode two clicks on an unselected platform restore the selection |
| PlatformSelect.ToggleNoDup | src/components/features/PlatformSelect.tsx:20-41 | a click never duplicates a platform in the selection |
| PlatformSelect.SingleStaysSingle | src/components/features/PlatformSelect.tsx:25-30 | in single-select mode the selection stays at most one platform |
| PlatformSelect.FilterNoDup | src/components/features/PlatformSelect.tsx:34 | removing platforms from a duplicate-free selection keeps it duplicate-free |
| PlatformSelect.IconIffRegistered | src/components/features/PlatformSelect.tsx:43-56 | exactly the registered platforms have an icon |
| PlatformsRoute.StrippedUser | src/app/api/platforms/route.ts:9-25 | passes exactly when the header, with its first "Bearer " removed, is a non-empty token the verifier accepts, and then gives that user; otherwise 401 |
| PlatformsRoute.FirstAuth | src/app/api/platforms/route.ts:88-93 | the first of the caller's authorisations for the platform, and none exactly when the caller has none for it |
| PlatformsRoute.Views | src/app/api/platforms/route.ts:32-38 | one view per authorisation, in order, with its id, platform and timestamps and no token |
| PlatformsRoute.Get | src/app/api/platforms/route.ts:6-41 | fails, with 401, exactly when the gate fails; otherwise every listed authorisation is one of the caller's and every one of the caller's is listed |
| PlatformsRoute.Refreshed | src/app/api/platforms/route.ts:98-108 | a refresh keeps the platform, sets the new access token and metadata, and keeps the stored refresh token when none is sent |
| PlatformsRoute.FirstAuthSnoc | src/app/api/platforms/route.ts:109-120 | an authorisation appended for a user and platform that had none is the one found for them |
| PlatformsRoute.CreateKeepsOne | src/app/api/platforms/route.ts:109-120 | creating an authorisation for a user and platform that had none keeps at most one per user and platform |
| PlatformsRoute.UpdateSamePlatform | src/app/api/platforms/route.ts:96-108 | rewriting one authorisation without changing its platform keeps every row's owner and platform |
| PlatformsRoute.UpdateKeepsFirst | src/app/api/platforms/route.ts:96-108 | after a refresh the authorisation found for the user and platform is the refreshed one |
| PlatformsRoute.Post | src/app/api/platforms/route.ts:52-129 | 401 from the gate, 400 without platform or access token, each leaving the store unchanged; otherwise the caller's authorisation for the platform is refreshed, or created when there is none, at most one per user and platform is kept, and the answer carries no token and says "更新" or "创建" accordingly |
| PlatformsRoute.DeleteClearsPlatform | src/app/api/platforms/route.ts:172-190 | with one authorisation per user and platform, deleting the one found leaves none for that user and platform |
| PlatformsRoute.Delete | src/app/api/platforms/route.ts:140-194 | 401 from the gate, 400 without platform, 404 when the caller has no authorisation for it, each leaving the store unchanged; otherwise exactly that authorisation is removed |
| PromptManagement.ListUrl | src/components/features/PromptManagement.tsx:74-76 | the list URL is the bare prompts path exactly when the panel has no platform, and otherwise ends with the platform id |
| PromptManagement.FilledIsTrimmed | src/components/features/PromptManagement.tsx:151 | a form counts as filled exactly when the trimmed name and both trimmed prompt texts are non-empty and a platform is chosen |
| PromptManagement.SaveRequest | src/components/features/PromptManagement.tsx:164-197 | a save that is neither a create nor has a selected prompt fails with "无效的操作"; otherwise the body is the form, the method is POST exactly when creating, and an update addresses the selected prompt's id |
| PromptManagement.IdUrl | src/components/features/PromptManagement.tsx:186 | the URL for one prompt starts with the prompts path and ends with its id |
| PromptManagement.FormFor | src/components/features/PromptManagement.tsx:133-145 | the form shows every field of the selected prompt, or is an unfilled form for the panel's platform when none is selected |
| PromptManagement.PlatformName | src/components/features/PromptManagement.tsx:259-262 | the name is "未知平台" exactly when the id is not a registered platform |
| PromptManagement.Panel.constructor | src/components/features/PromptManagement.tsx:40-52 | the panel starts loading, with no prompts, no selection, no error, an empty form for its platform, and neither editing nor creating |
| PromptManagement.Panel.Fetch | src/components/features/PromptManagement.tsx:58-101 | without a user nothing is requested and "用户未登录，无法获取提示词" is shown; otherwise the list URL is requested, a listing replaces the prompts and clears the error, a failure keeps the prompts and shows its text; loading ends and the form and selection stay |
| PromptManagement.Panel.CreateNew | src/components/features/PromptManagement.tsx:103-112 | the selection and error are cleared, the form is the empty form for the panel's platform, and create and edit mode are on |
| PromptManagement.Panel.SelectPrompt | src/components/features/PromptManagement.tsx:114-126 | the prompt becomes the selection and fills the form, create mode ends, and the parent is told of it exactly when it has a handler |
| PromptManagement.Panel.EditPrompt | src/components/features/PromptManagement.tsx:128-131 | edit mode is on and the error cleared, nothing else changes |
| PromptManagement.Panel.Edit | src/components/features/PromptManagement.tsx:47-50 | typing sets the form and nothing else |
| PromptManagement.Panel.CancelEdit | src/components/features/PromptManagement.tsx:133-148 | the form shows the selection again, or the empty form, and edit and create mode end |
| PromptManagement.Panel.Save | src/components/features/PromptManagement.tsx:150-216 | an unfilled form only shows "请填写所有必填字段"; otherwise the first request is the write of SaveRequest, a failed write keeps the editing state and shows the body's error or the fallback, and a successful one ends editing and reloads the list: the reloaded list, or with no user "no user" and the old list, or on a failed reload the old list and the reload's error; saving and loading end |
| PromptManagement.Panel.Write | src/components/features/PromptManagement.tsx:199-209 | the write comes first; a failure shows the body's error field or "操作失败", a success ends editing and reloads: the GET follows when there is a user, and the list and error are those of the reload, its failure keeping the old list |
| PromptManagement.Panel.Delete | src/components/features/PromptManagement.tsx:218-248 | a declined confirmation changes nothing and sends nothing; otherwise the DELETE of that id is sent first, a failure keeps the list and selection and shows its error, a success clears the selection and reloads the list, with the reload's list, or the old list and its error when it fails or there is no user |
| PromptManagement.Panel.UsePrompt | src/components/features/PromptManagement.tsx:250-257 | the parent receives the selected prompt exactly when there is one and it has a handler |
| PromptManagement.Panel.Retry | src/components/features/PromptManagement.tsx:264-270 | while editing the save is tried again, with the same request and validation; otherwise the list is requested again (nothing without a user), edit mode stays off and a listing replaces the prompts |
| PromptsRoute.Select | src/app/api/prompts/route.ts:22-25 | the rows kept are exactly the caller's prompts, of the requested platform when a non-empty one is given |
| PromptsRoute.SelectAll | src/app/api/prompts/route.ts:22-25 | without a platform the filter keeps exactly the caller's prompts |
| PromptsRoute.SelectPlatform | src/app/api/prompts/route.ts:22-25 | with a platform the filter keeps the same prompts, in the same order, as the per-platform listing |
| PromptsRoute.Get | src/app/api/prompts/route.ts:6-41 | 401 "请先登录" exactly when there is no session user; otherwise the selected prompts rearranged, most recently updated first |
| PromptsRoute.GetListsSelected | src/app/api/prompts/route.ts:22-31 | every listed prompt is a stored prompt of the caller, of the requested platform when one was given |
| PromptsRoute.Post | src/app/api/prompts/route.ts:44-88 | 401 without a session user and 400 unless platform, name and both prompts are given, each leaving the store unchanged; otherwise exactly one new prompt owned by the caller is appended, returned with "自定义提示词创建成功", and no other table changes |
| PublishRoute.Matched | src/app/api/publish/route.ts:35-50 | the texts found are exactly the stored texts of that record whose platform was requested, in table order |
| PublishRoute.AuthorizedPlatforms | src/app/api/publish/route.ts:69-79 | a platform is listed exactly when the caller holds an authorisation for it and it was requested |
| PublishRoute.Unauthorized | src/app/api/publish/route.ts:82-84 | the unauthorised platforms are never more than those requested |
| PublishRoute.UnauthorizedIff | src/app/api/publish/route.ts:69-84 | a platform is reported unauthorised exactly when it was requested and the caller holds no authorisation for it |
| PublishRoute.UnauthorizedMembers | src/app/api/publish/route.ts:82-84 | a platform survives the filter exactly when it was requested and is not among the authorised ones |
| PublishRoute.UnauthorizedInOrder | src/app/api/publish/route.ts:82-84 | the unauthorised platforms keep the request's order and duplicates: they are the request filtered |
| PublishRoute.Attempts | src/app/api/publish/route.ts:120-159 | one publish record per text, in order, each the record of that text's attempt |
| PublishRoute.OutcomesOf | src/app/api/publish/route.ts:131-166 | one result per text, in order |
| PublishRoute.OutcomesSpec | src/app/api/publish/route.ts:131-166 | each result names its text's platform, says "success" exactly when the attempt did not fail, carries the failure's message otherwise, and holds the publish record numbered for it |
| PublishRoute.IdsOfIff | src/app/api/publish/route.ts:109-117 | an id is among the published ids exactly when one of the texts carries it |
| PublishRoute.MarkAll | src/app/api/publish/route.ts:109-148 | after the updates every published text has its new status and every other text is as it was |
| PublishRoute.MarkOneMore | src/app/api/publish/route.ts:109-148 | updating one more text is the same as publishing one more id |
| PublishRoute.MarkAllFind | src/app/api/publish/route.ts:109-148 | looking a text up after the updates finds its marked row when it was published, and the old row otherwise |
| PublishRoute.PublishAll | src/app/api/publish/route.ts:96-168 | the loop over the matched texts appends exactly their publish records, in order, marks exactly those texts, returns their results and changes no other table |
| PublishRoute.PublishTurn | src/app/api/publish/route.ts:99-167 | one turn of the loop extends the account of texts, publish records and results by the i-th text |
| PublishRoute.PublishOne | src/app/api/publish/route.ts:99-167 | one text is marked "已发布", or "失败" with its error, one publish record "成功" or "失败" is appended, and the result carries it |
| PublishRoute.ContentsAttached | src/app/api/publish/route.ts:35-61 | every matched text belongs to a stored record, so the ownership test has a record to read |
| PublishRoute.PublishStep | src/app/api/publish/route.ts:99-167 | a turn's update, record and result are what the loop's account needs for one more text |
| PublishRoute.Post | src/app/api/publish/route.ts:6-182 | 401, 400 without contentId, 400 without a non-empty platform list, 404 when nothing matches, 403 "无权发布该内容" when a matched text is someone else's, and 403 with the unauthorised platforms, in that order, each leaving the store unchanged; otherwise the texts are published and the results returned |
| PublishRoute.PublishMarksExactly | src/app/api/publish/route.ts:99-167 | after a publish each matched text has its new status, each publish record names its text and platform and says "成功" exactly when the attempt did not fail, and every other text is untouched |
| PublishRoute.History | src/app/api/publish/route.ts:204-207 | the history is exactly the caller's publish records, of the requested platform when a non-empty one is given |
| PublishRoute.Get | src/app/api/publish/route.ts:185-240 | 401 exactly without a session user; otherwise at most limit records, the total is the history's size and the page count is the least that covers it |
| PublishRoute.GetShowsListed | src/app/api/publish/route.ts:209-222 | a page shows only the caller's listed publish records, newest first |
| PublishRoute.PageOfHistory | src/app/api/publish/route.ts:201-218 | any page of the sorted history holds only listed records, newest first |
| PublishRoute.PageListed | src/app/api/publish/route.ts:201-218 | any page of a rearrangement of the history holds only listed records |
| PublishRoute.PageNewestFirst | src/app/api/publish/route.ts:213-217 | a page of a newest-first list is newest first |
| Store.Find | src/app/api/content/route.ts:259-261 | the row found carries the id and is in the table, and nothing is found exactly when no row carries the id |
| Store.FindOwned | src/app/api/platforms/prompts/route.ts:150-155 | a row is found by id and owner exactly when the row with that id belongs to the user, and it is that row |
| Store.Owned | src/app/api/content/route.ts:34-37 | exactly the user's rows, each a row of the table |
| Store.Remove | src/app/api/content/route.ts:380-382 | every row without the id stays and no row with it does |
| Store.Update | src/app/api/content/route.ts:285-292 | only the rows carrying the id take the new fields; every row keeps its id, owner and creation time |
| Store.Numbered | src/app/api/content/route.ts:186-197 | rows created in one run get consecutive ids from the counter, in order, with one owner and time |
| Store.Detach | src/app/api/content/route.ts:298-300 | exactly the rows not attached to the record stay |
| Store.RowsOf | src/app/api/content/route.ts:306-316 | exactly the rows attached to the record |
| Store.RemoveKeepsTable | src/app/api/content/route.ts:380-382 | removing a row keeps the ids unique and below the counter |
| Store.DetachKeepsTable | src/app/api/content/route.ts:298-300 | detaching a record's rows keeps the ids unique and below the counter |
| Store.RemoveFind | src/app/api/platforms/prompts/route.ts:234-236 | after removal the id is not found and every other id finds what it found before |
| Store.FindIndex | src/app/api/content/route.ts:259-261 | with unique ids the lookup returns the one row carrying the id |
| Store.UpdateFind | src/app/api/platforms/prompts/route.ts:165-175 | an update keeps the ids unique, the updated row is found with its new fields, and every other id finds what it found before |
| Store.AppendNumbered | src/app/api/content/route.ts:186-197 | rows numbered from the counter extend a table without clashing ids |
| Store.NumberedConcat | src/app/api/content/route.ts:164-206 | numbering two runs one after the other is numbering them together |
| Store.AttachedAfterUpdate | src/app/api/content/route.ts:285-292 | updating a record's fields keeps every attached generated row pointing at a stored record |
| Store.Db.CreateRecord | src/app/api/content/route.ts:151-158 | the new record is appended with the next id and its owner, and no other table changes |
| Store.Db.CreateGenerated | src/app/api/content/route.ts:186-197 | the new rows are appended with consecutive ids from the counter, and no other table changes |
| Store.Db.UpdateRecord | src/app/api/content/route.ts:285-292 | only that record's fields change |
| Store.Db.DetachRows | src/app/api/content/route.ts:298-300 | exactly the generated rows of that record are removed |
| Store.Db.DeleteRecord | src/app/api/content/route.ts:380-382 | the record and its generated rows are removed, nothing else |
| Store.Db.UpdateGenerated | src/app/api/content/route.ts:523-529 | only that generated row's fields change |
| Store.Db.CreatePrompt | src/app/api/platforms/prompts/route.ts:88-96 | the new prompt is appended with the next id and its owner, and no other table changes |
| Store.Db.UpdatePrompt | src/app/api/platforms/prompts/route.ts:165-175 | only that prompt's fields change |
| Store.Db.RemovePrompt | src/app/api/platforms/prompts/route.ts:234-236 | exactly that prompt is removed |
| Store.Db.CreateAuth | src/app/api/platforms/route.ts:111-121 | the new authorisation is appended with the next id and its owner, and no other table changes |
| Store.Db.UpdateAuth | src/app/api/platforms/route.ts:98-108 | only that authorisation's fields change |
| Store.Db.RemoveAuth | src/app/api/platforms/route.ts:186-188 | exactly that authorisation is removed |
| Store.Db.CreatePublish | src/app/api/publish/route.ts:120-129 | the new publish record is appended with the next id and its owner, and no other table changes |
| UrlProcessing.CannedPage | src/lib/urlProcessing.ts:55-196 | every canned page embeds the requested URL, right after the page's fixed opening text |
| UrlProcessing.SimulateFetchContent | src/lib/urlProcessing.ts:26-53 | a URL whose host cannot be parsed is refused with "无效的URL: " and the URL; otherwise the canned page of the host's kind for that URL |
| UrlProcessing.ExampleFirst | src/lib/urlProcessing.ts:37-47 | a host gets the example page exactly when it contains "example.com", before the github, news and blog tests |
| UrlProcessing.SmartpostTestRedundant | src/lib/urlProcessing.ts:37 | a host containing "smartpost.example.com" already passes the "example.com" test |
| UrlProcessing.FetchContentFromUrl | src/lib/urlProcessing.ts:10-20 | the fetch succeeds exactly when the host parses, and the page then embeds the URL; a failure is rewrapped as "无法抓取链接内容: 无效的URL: " and the URL |
| UrlProcessing.InvalidUrlNamed | src/lib/urlProcessing.ts:10-53 | the refusal of a malformed URL starts with the rewrap lead and ends with the URL |
| Strings.ReplaceAllIsSplitJoin | src/lib/openrouter.ts:172 | a global replacement of a pattern equals splitting on the pattern and joining the pieces with the replacement |
| Strings.SingleSlot | src/lib/openrouter.ts:172 | replacing a slot that occurs once, between brace-free text, yields the text with the value put in the slot's place |
| Strings.OtherSlotAbsent | src/lib/openrouter.ts:175 | text with one `{...}` slot and otherwise free of braces does not contain a different slot, so the second replacement leaves it alone |
| Strings.CollapseKeepsVisible | src/app/api/fetch-url/route.ts:69 | turning every run of white space into one space keeps the non-space characters and their order |
| Strings.TrimIdempotent | src/app/api/fetch-url/route.ts:31 | trimming a trimmed text changes nothing |
| Strings.ToLower | src/lib/fileProcessing.ts:20 | the lowered text has the input's length and lowers each letter in its place |
| Strings.StripTags | src/lib/fileProcessing.ts:267 | no `<` is followed later by a `>` in the result, and text without `>` is left unchanged |
| Strings.StripTagsOf | src/lib/fileProcessing.ts:267 | text before a tag is kept in place and the tag becomes one space: `a<t>b` becomes `a` + " " + the stripped `b` |
| Seqs.DedupSpec | src/app/api/content/route.ts:66-68 | `filter((x, i, arr) => arr.indexOf(x) === i)` keeps each value once, exactly the input's values, in the order of their first occurrence |
| Seqs.DedupNoDup | src/app/api/content/route.ts:66-68 | a list without repeats is left as it is |
| Seqs.NewestFirstSpec | src/app/api/content/recent/route.ts:29-31 | ordering by creation time, newest first, is sorted descending and a permutation of the input |
| Seqs.InsertSorted | src/app/api/content/recent/route.ts:29-31 | inserting a row into a newest-first list keeps it newest first |
| Seqs.InsertPerm | src/app/api/content/recent/route.ts:29-31 | inserting a row adds exactly that row |

## Left out

- The completion service, axios and cheerio, pdf.js, mammoth, tesseract, `FileReader`, bcrypt/JWT and NextAuth are not modelled. Each call is an outcome supplied by the caller, and the token or session check is a function from token to user.
- Prisma, sql.js and sqlite are not modelled. `Store.Db` is tables of rows in insertion order with ids from one counter. The cascade delete of a record's generated rows is part of `Store.Db.DeleteRecord`'s contract rather than derived from a schema.
- Strings are sequences of code points. JavaScript's `length`, `slice` and `substring` count UTF-16 units, so the two differ on characters outside the Basic Multilingual Plane.
- `Strings.ToLower` lowers the ASCII letters only; `toLowerCase` also lowers other scripts. Only the extension tests use it, and those compare with ASCII extensions.
- `OpenRouter.ProcessCustomPrompt`: models literal replacement. In JavaScript, `$&`, `$1` and `$$` in the inserted content would be interpreted; the model treats content as free of `$` patterns.
- `GenerateRoute.UserPromptFor`: same limitation as `OpenRouter.ProcessCustomPrompt`; `$` patterns in the content are not interpreted.
- `ContentRoute.Post`: the `Promise.all` fan-out of inserts runs as a sequential loop in selection order. The rows created and the count reported do not depend on the order.
- `ContentRoute.Get`: requires page ≥ 1 and limit ≥ 1. With smaller values the handler passes a negative skip or take, or divides by zero, and what happens is decided by Prisma.
- `PublishRoute.Get`: requires page ≥ 1 and limit ≥ 1, for the same reason.
- `Api.Pages`, `Api.Page` and `Api.Skip` require a positive limit (and page ≥ 1) for the same reason.
- The handlers' catch-all 500 answers are not modelled. A request body that `request.json()` cannot parse, or a store call that throws, makes a handler answer 500 with a "…失败" message and the error's `details`. There are such branches in generate (1), content (8), search (1), recent (1), prompts (2), platforms/prompts (4), platforms (3) and publish (2). The model takes request bodies as already parsed, and `Store.Db` never fails, so these paths are absent.
- `PublishRoute.Post`: the status update and publish record written inside the per-text catch branch can themselves throw. That escapes to the outer 500 after earlier texts were already marked published. The `failures` map models only failures of the publishing step itself, so this partial outcome is not modelled.
- Query parameters arrive already parsed; `parseInt` of a non-numeric text (NaN) is not modelled.
- Floating point, dates and randomness are left out:
  - `formatBytes` of a non-zero size is a caller-supplied text;
  - timestamps are integers supplied by the caller;
  - the export date is a parameter;
  - the 30-day expiry of a platform authorisation is not stored;
  - the random post ids of a publish are not modelled;
  - `Date.now` session ids are given by the caller.
- Timers are left out:
  - the abort timer of the prompt manager's requests;
  - the `setTimeout` deferral of the platform picker's notification;
  - the 1.5 s delay of the simulated link fetch;
  - the delayed reset of the "applied" flag in the chat.
- React scheduling, rendering and transient loading flags are left out. Text-area height, object URLs for image previews, and alerts (which are returned as texts) are not modelled.
- Router navigation is returned as a path.
- Console logging is left out.
- Deserialising browser storage: a corrupt JSON entry is treated as missing. `HistoryStore.Store` keeps the deserialised lists.
- The DOM branch of `extractTextFromHtml` is not modelled. The export helpers (PDF, Word, image and Markdown export) and the drop zone's own type and count filtering are not modelled.
- `UploadPage.MergeOne`: a result the route does not return for the requested platform is modelled as a missing key. In the page it becomes an `undefined` entry, which renders like no draft.
- `ChatInterface`'s own `extractKeyContent` is modelled and proved, though the component applies the raw reply and never calls it; `ChatInterface.Session.Receive` states that the draft is the raw reply.
- `GET_generated_contents`, `POST_generated_contents` and `DELETE_generated_contents` in the content handler file, and the `content/[id]` handlers, are not part of this model. Only `PUT_generated_contents` is.
- The generate route's `fileType`, `source` and `fileName` fields are accepted but not modelled, because they do not change what is generated.
- Login, registration, the dashboard and the presentational components are not part of this model.

## Behaviour as coded

The model follows the code where it differs from the documented behaviour of the application:

- Reply extraction: the lead-in rule takes the leftmost lead-in phrase. In `以下是优化后的内容：夏天快乐` that is `以下是`, so the reply becomes `优化后的内容：夏天快乐`, not `夏天快乐` (`ChatInterface.FirstLeadInKept`).
- PDF extraction: every page contributes a non-blank marker, so the "no text" message appears exactly when the document has no pages (`FileProcessing.PdfBlankIff`).
- Plain-text and Markdown files: `readTextFile` rejects an empty file, because an empty result is falsy, and the error reaches the caller of `extractTextFromFile` (`FileProcessing.ReadText`).
- Per-platform prompts: the prompt editor offers `wechat`, which the registry does not know, and does not offer `weibo`, which it does (`PlatformPrompts.PanelPlatformsVersusRegistry`).
- The generate route's system-prompt table has the same gap: `weibo` falls back to the generic sentence (`GenerateRoute.TableVersusRegistry`).
- The default prompt for Weibo asks for 2000 characters, while the registry allows 280 (`Prompts.LiteralLimits`).
