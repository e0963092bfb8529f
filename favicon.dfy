/** The favicon short-circuit of src/config/favicon.ts. */
module Favicon {
  import opened Wrappers
  import opened HttpResponses

  /** Either the middleware answered and ended the response, or it handed on to `next()`. */
  datatype Outcome = Ended(reply: Reply) | Next

  const FaviconPath := "/favicon.ico"

  /**
   * `ignoreFavicon`: exactly the URL "/favicon.ico" is answered with an empty 204;
   * every other URL (a query string or a deeper path included) goes on to `next()`.
   */
  function IgnoreFavicon(url: string): (o: Outcome)
    ensures o.Ended? <==> url == FaviconPath
    ensures o.Ended? ==> o.reply == Reply(204, None)
  {
    if url == FaviconPath then Ended(Reply(Code(SuccessEmpty), None)) else Next
  }

  /** Matching is string equality, not a prefix or suffix check. */
  lemma ExactMatchOnly()
    ensures IgnoreFavicon("/favicon.ico?v=1") == Next
    ensures IgnoreFavicon("/x/favicon.ico") == Next
    ensures IgnoreFavicon("/favicon.ico").Ended?
  {
    assert "/favicon.ico?v=1" != FaviconPath by { assert |"/favicon.ico?v=1"| != |FaviconPath|; }
    assert "/x/favicon.ico" != FaviconPath by { assert |"/x/favicon.ico"| != |FaviconPath|; }
  }
}
