/**
 * The four input modes shared by the content page (src/app/content/page.tsx)
 * and the upload page (src/app/upload/page.tsx): one sentence, long text, a
 * document, or a link, or no mode chosen yet. Each page keeps the inputs of
 * every mode and hands the one of the current mode to the generator.
 */
module InputModes {
  datatype InputType = Sentence | LongText | Document | Link | NoInput

  /** The text processed in link mode before the link's content is fetched, ahead of the address. */
  const LinkLead := "从链接获取内容: "

  /**
   * `getContentToProcess`: the extracted text in document mode; in link mode
   * the fetched text, or the lead and the address while nothing was fetched;
   * the typed text in every other mode.
   */
  function ToProcess(mode: InputType, extracted: string, linkUrl: string, linkContent: string, typed: string): (r: string)
    ensures mode.Document? ==> r == extracted
    ensures mode.Link? && linkContent != "" ==> r == linkContent
    ensures mode.Link? && linkContent == "" ==> r == LinkLead + linkUrl
    ensures !mode.Document? && !mode.Link? ==> r == typed
  {
    match mode
    case Document => extracted
    case Link => if linkContent != "" then linkContent else LinkLead + linkUrl
    case _ => typed
  }

  /** The mode whose inputs are the files and their extracted text. */
  predicate KeepsDocument(mode: InputType) { mode.Document? }

  /** The mode whose inputs are the address and the fetched text. */
  predicate KeepsLink(mode: InputType) { mode.Link? }

  /** The modes whose input is the typed text. */
  predicate KeepsTyped(mode: InputType) { mode.Sentence? || mode.LongText? }

  /**
   * Choosing a mode never changes the text that mode processes, and no
   * mode's text depends on the inputs that choosing it empties; with no mode
   * chosen the text is the empty typed text.
   */
  lemma ChoosingKeepsText(mode: InputType, extracted: string, linkUrl: string, linkContent: string, typed: string,
                          extracted': string, linkUrl': string, linkContent': string, typed': string)
    requires extracted' == if KeepsDocument(mode) then extracted else ""
    requires linkUrl' == (if KeepsLink(mode) then linkUrl else "") && linkContent' == (if KeepsLink(mode) then linkContent else "")
    requires typed' == if KeepsTyped(mode) then typed else ""
    ensures ToProcess(mode, extracted', linkUrl', linkContent', typed') ==
            (if mode.NoInput? then "" else ToProcess(mode, extracted, linkUrl, linkContent, typed))
  {
  }

  /** The lead in link mode is never empty, so link mode always has something to process. */
  lemma LinkNeverEmpty(linkUrl: string, linkContent: string)
    ensures ToProcess(Link, "", linkUrl, linkContent, "") != ""
  {
    assert |LinkLead + linkUrl| >= |LinkLead|;
  }
}
