/** The network as the core sees it. A GET of a URL is an oracle: the status
    code and the text (`get_text()`, before stripping) of the HTML elements the
    code reads, in document order. */
module Http {

  datatype WebPage = WebPage(
    status: int,
    headings: seq<string>,    // `div.mw-search-result-heading` elements
    paragraphs: seq<string>,  // `p` elements
    lists: seq<string>)       // `ul` elements

  /** The answer to a GET of each URL. */
  type Web = string -> WebPage

  const StatusOk: int := 200

  /** `soup.find_all("p") + soup.find_all("ul")`: paragraphs first, then lists. */
  function Blocks(page: WebPage): (blocks: seq<string>)
    ensures |blocks| == |page.paragraphs| + |page.lists|
    ensures blocks[..|page.paragraphs|] == page.paragraphs
    ensures blocks[|page.paragraphs|..] == page.lists
  {
    page.paragraphs + page.lists
  }
}
