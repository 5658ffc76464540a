/**
 * The synchronous (version 1) retrieval: a pure function from a request to
 * the list of matching contexts.
 */
module Retrieval {
  import opened DataModel
  import opened ExampleData
  import opened Scan

  /**
   * Keyword retrieval over a corpus: the capped list of matching articles in
   * corpus order, each turned into a text context without a confidence score.
   */
  function RetrieveFrom(items: seq<WikipediaArticle>, request: RetrievalRequest): (r: seq<Context>)
    ensures r == ArticleContexts(Cap(Matches(items, request.latestUserPrompt), request.maxMatches), UnsetScore)
    ensures request.maxMatches > 0 ==> |r| <= request.maxMatches
    ensures |r| <= |items|
    ensures forall i :: 0 <= i < |r| ==>
              && r[i].category == WikipediaCategory
              && r[i].contentType == TEXT
              && r[i].path == r[i].matchedContent
              && r[i].surroundingContent == [] && r[i].links == []
              && exists a :: a in items && TitleMatches(request.latestUserPrompt, a)
                          && r[i].name == a.title && r[i].path == a.url
  {
    ScanFromEmptyIsCapOfMatches(items, request.latestUserPrompt, request.maxMatches);
    var found := ScanFrom(items, request.latestUserPrompt, request.maxMatches, 0);
    assert forall i :: 0 <= i < |found| ==> found[i] in found;
    ArticleContexts(found, UnsetScore)
  }

  /** The synchronous retrieval handler: the keyword retrieval over the fixed corpus. */
  function Retrieve(request: RetrievalRequest): seq<Context>
  {
    RetrieveFrom(Corpus, request)
  }
}
