/**
 * The four retrieval strategies: build the request, call the search service once, print what it
 * returns. The search service is a parameter; a failed call is the `RequestFailedException` the
 * strategies do not catch.
 */
module Strategies {
  import opened Values
  import opened SearchRequests
  import opened SearchResults

  /** `searchClient.SearchAsync<SearchDocument>(text, options)`: a response, or the failure it throws. */
  type SearchService = SearchRequest -> Result<SearchResponse, string>

  /** What a strategy prints for the service's reply, under its layout. */
  function ReportOf(layout: Layout, reply: Result<SearchResponse, string>): Printed
  {
    match reply
    case Err(detail) => Printed([], Some(RequestFailed(detail)))
    case Ok(response) =>
      if layout == SearchResults.Semantic then SemanticReport(response) else PlainReport(layout, response.hits)
  }

  /** A failed service call prints nothing and escapes; otherwise the printing never reports `RequestFailed`. */
  lemma FailedCallEscapes(layout: Layout, reply: Result<SearchResponse, string>)
    ensures reply.Err? ==> ReportOf(layout, reply) == Printed([], Some(RequestFailed(reply.error)))
    ensures reply.Ok? ==> ReportOf(layout, reply).fault.None? || !ReportOf(layout, reply).fault.value.RequestFailed?
  {
    if reply.Ok? {
      if layout == SearchResults.Semantic {
        SemanticOutcome(reply.value);
        WalkFault(SearchResults.Semantic, reply.value.hits);
      } else {
        PlainOutcome(layout, reply.value.hits);
      }
    }
  }

  /** The printing that follows the service call, by the result loops' methods; `ReportOf` specifies it. */
  method Present(layout: Layout, reply: Result<SearchResponse, string>) returns (printed: Printed)
    ensures printed == ReportOf(layout, reply)
  {
    match reply {
      case Err(detail) =>
        printed := Printed([], Some(RequestFailed(detail)));
      case Ok(response) =>
        if layout == SearchResults.Semantic {
          printed := PresentSemantic(response);
        } else {
          printed := PresentResults(layout, response.hits);
        }
    }
  }

  /** `SingleVectorSearch`: `k` nearest neighbours of the query's embedding, numbered output. */
  method SingleVectorSearch(embed: string -> Embedding, search: SearchService, query: string,
                            k: int := DefaultNeighbors)
    returns (printed: Printed)
    ensures printed == ReportOf(Numbered, search(SingleVectorRequest(embed, query, k)))
  {
    var reply := search(SingleVectorRequest(embed, query, k));
    printed := Present(Numbered, reply);
  }

  /** `SingleVectorSearchWithFilter`: three nearest neighbours restricted by the caller's OData filter. */
  method SingleVectorSearchWithFilter(embed: string -> Embedding, search: SearchService, query: string, filter: string)
    returns (printed: Printed)
    ensures printed == ReportOf(Plain, search(FilteredVectorRequest(embed, query, filter)))
  {
    var reply := search(FilteredVectorRequest(embed, query, filter));
    printed := Present(Plain, reply);
  }

  /** `SimpleHybridSearch`: the query text and its embedding together, ten results. */
  method SimpleHybridSearch(embed: string -> Embedding, search: SearchService, query: string)
    returns (printed: Printed)
    ensures printed == ReportOf(Plain, search(HybridRequest(embed, query)))
  {
    var reply := search(HybridRequest(embed, query));
    printed := Present(Plain, reply);
  }

  /** `SemanticHybridSearch`: the hybrid search reranked by the semantic configuration, with answers and captions. */
  method SemanticHybridSearch(embed: string -> Embedding, search: SearchService, query: string)
    returns (printed: Printed)
    ensures printed == ReportOf(SearchResults.Semantic, search(SemanticHybridRequest(embed, query)))
  {
    var reply := search(SemanticHybridRequest(embed, query));
    printed := Present(SearchResults.Semantic, reply);
  }
}
