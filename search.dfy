/** The local search path (internal/controller/search.go): the output of
    `grep -ri coordination <corpus>` turned into a single search result. */
module LocalSearch {

  import opened Proto

  /** The word grep looks for; the request's query is only logged. */
  const GrepKeyword: string := "coordination"
  const CacheSource: string := "Local Operational Cache (Grep)"
  const CacheScore: real := 0.7
  const NoMatches: string := "No direct matches found in local operational cache. Suggesting strategic escalation."
  const FastPathContext: string := "Fast-path local retrieval active. Safety policy enforced."
  /** Output longer than this is cut to this length and marked with "...". */
  const MaxContent: nat := 1000

  /** The content PerformSearch reports for a given grep output. */
  function CacheContent(out: string): (c: string)
    ensures out == "" ==> c == NoMatches
    ensures |out| > MaxContent ==> c == out[..MaxContent] + "..."
    ensures 0 < |out| <= MaxContent ==> c == out
    ensures c != "" && |c| <= MaxContent + 3
  {
    if out == "" then NoMatches
    else if |out| > MaxContent then out[..MaxContent] + "..."
    else out
  }

  /** SearchController.PerformSearch, with the grep run as a function from
      keyword to output: one result from the local cache, score 0.7, whose
      content does not depend on the request at all. */
  function PerformSearch(req: SearchRequest, grep: string -> string): (resp: SearchResponse)
    ensures |resp.results| == 1
    ensures resp.results[0] == SearchResult(CacheSource, CacheContent(grep(GrepKeyword)), CacheScore)
    ensures resp.reasoningContext == FastPathContext
  {
    var out := grep(GrepKeyword);
    SearchResponse([SearchResult(CacheSource, CacheContent(out), CacheScore)], FastPathContext)
  }

  /** Non-empty output is kept from its start: up to 1000 characters of it
      open the content, and the content is longer than 1000 exactly when the
      output was cut. */
  lemma CacheContentKeepsPrefix(out: string)
    requires out != ""
    ensures var n := if |out| < MaxContent then |out| else MaxContent;
            out[..n] <= CacheContent(out)
    ensures |CacheContent(out)| > MaxContent <==> |out| > MaxContent
  {
  }
}
