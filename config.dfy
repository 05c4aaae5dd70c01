/** The backend's base URL and the path of each backend endpoint
    (src/config.rs). */
module Config {

  const BaseUrl: string := "http://127.0.0.1:8000"

  const SearchEndpoint: string := "search"
  const SearchByAuthorEndpoint: string := "search_by_author"
  const UploadPapersEndpoint: string := "upload_papers"
  const SearchByDocIdEndpoint: string := "document_details_by_id"
  const SearchByKeywordEndpoint: string := "search_by_keyword"

  /** The five endpoint constants above as one list, so that their shape
      can be stated once: pairwise distinct, non-empty, and none of them
      starts with the `/` that the request URL puts before it. The handlers
      route to the constants themselves; `Server.UrlIdentifiesTool` states
      the distinctness as the handlers use it. */
  function Endpoints(): (paths: seq<string>)
    ensures |paths| == 5
    ensures forall i, j :: 0 <= i < j < |paths| ==> paths[i] != paths[j]
    ensures forall i :: 0 <= i < |paths| ==> |paths[i]| > 0 && paths[i][0] != '/'
  {
    [SearchEndpoint, SearchByAuthorEndpoint, UploadPapersEndpoint,
     SearchByDocIdEndpoint, SearchByKeywordEndpoint]
  }

  /** The base URL does not end in `/`, so a formed URL has exactly one `/`
      between base and path. */
  lemma BaseUrlHasNoTrailingSlash()
    ensures |BaseUrl| > 0 && BaseUrl[|BaseUrl| - 1] != '/'
  {
  }
}
