/**
 * The `SearchOptions` that each of the four retrieval strategies builds, together with the search
 * text it passes next to them.
 */
module SearchRequests {
  import opened Values
  import IndexSchema

  /** `RawVectorQuery`: the query vector, the number of neighbours and the vector fields searched. */
  datatype VectorQuery = RawVectorQuery(vector: Embedding, kNearestNeighborsCount: int, fields: seq<string>)

  datatype QueryType = Simple | Semantic
  datatype QueryLanguage = EnUs
  /** `QueryCaptionType.Extractive` and `QueryAnswerType.Extractive`. */
  datatype Extraction = Extractive

  /** The properties of `SearchOptions` the program sets; None is a property left unset. */
  datatype SearchOptions = SearchOptions(
    vectorQueries: seq<VectorQuery>,
    size: Option<int>,
    select: seq<string>,
    filter: Option<string>,
    queryType: Option<QueryType>,
    queryLanguage: Option<QueryLanguage>,
    semanticConfigurationName: Option<string>,
    queryCaption: Option<Extraction>,
    queryAnswer: Option<Extraction>,
    queryCaptionHighlightEnabled: Option<bool>)

  /** The two arguments of `SearchAsync`: the search text (null for none) and the options. */
  datatype SearchRequest = SearchRequest(searchText: Option<string>, options: SearchOptions)

  /** `new SearchOptions { }`: nothing set. */
  const NoOptions: SearchOptions := SearchOptions([], None, [], None, None, None, None, None, None, None)

  /** The default of `SingleVectorSearch`'s `k`, and the neighbour count of the other three strategies. */
  const DefaultNeighbors: int := 3
  const HybridSize: int := 10
  const SemanticSize: int := 3
  const SelectedFields: seq<string> := ["title", "content", "category"]
  const SearchedVectorField: string := "contentVector"

  function ContentVectorQuery(vector: Embedding, k: int): VectorQuery
  {
    RawVectorQuery(vector, k, [SearchedVectorField])
  }

  // ---------------------------------------------------------------------------------------
  // Shapes a request can have.

  /** Exactly one vector query: over `contentVector` alone, with the given vector and neighbour count. */
  predicate SearchesContentVector(r: SearchRequest, vector: Embedding, k: int)
  {
    r.options.vectorQueries == [RawVectorQuery(vector, k, [SearchedVectorField])]
  }

  /** Neither semantic ranking nor caption or answer extraction is requested. */
  predicate NotSemantic(o: SearchOptions)
  {
    && o.queryType.None? && o.queryLanguage.None? && o.semanticConfigurationName.None?
    && o.queryCaption.None? && o.queryAnswer.None? && o.queryCaptionHighlightEnabled.None?
  }

  /** Semantic ranking in en-US under the named configuration, with extractive captions, highlighted, and answers. */
  predicate SemanticRanking(o: SearchOptions, configuration: string)
  {
    && o.queryType == Some(Semantic) && o.queryLanguage == Some(EnUs)
    && o.semanticConfigurationName == Some(configuration)
    && o.queryCaption == Some(Extractive) && o.queryAnswer == Some(Extractive)
    && o.queryCaptionHighlightEnabled == Some(true)
  }

  /** Something to match on: a search text or a vector query. */
  predicate HasQuery(r: SearchRequest)
  {
    r.searchText.Some? || |r.options.vectorQueries| > 0
  }

  /**
   * The request only names what the index declares: every vector query searches vector fields
   * whose profile resolves to an algorithm, every selected field exists, and a semantic
   * configuration, when named, is declared.
   */
  predicate FitsSchema(r: SearchRequest, idx: IndexSchema.SearchIndex)
  {
    && (forall q, f :: q in r.options.vectorQueries && f in q.fields ==>
          match IndexSchema.FindField(idx, f)
          case None => false
          case Some(field) =>
            field.vectorSearchProfile.Some? &&
            IndexSchema.ResolveProfile(idx, field.vectorSearchProfile.value).Some?)
    && IndexSchema.DeclaresFields(idx, r.options.select)
    && (r.options.semanticConfigurationName.Some? ==>
          IndexSchema.FindConfiguration(idx, r.options.semanticConfigurationName.value).Some?)
  }

  // ---------------------------------------------------------------------------------------
  // The four request builders. Each embeds the query text and builds the options.

  /** `SingleVectorSearch`: vector only, `k` neighbours and `k` results, no text, no filter. */
  function SingleVectorRequest(embed: string -> Embedding, query: string, k: int := DefaultNeighbors): (r: SearchRequest)
    ensures r.searchText == None
    ensures SearchesContentVector(r, embed(query), k)
    ensures r.options.size == Some(k)
    ensures r.options.select == SelectedFields
    ensures r.options.filter == None && NotSemantic(r.options)
  {
    SearchRequest(None,
      NoOptions.(vectorQueries := [ContentVectorQuery(embed(query), k)], size := Some(k), select := SelectedFields))
  }

  /** `SingleVectorSearchWithFilter`: vector only, 3 neighbours, the caller's filter verbatim, no size. */
  function FilteredVectorRequest(embed: string -> Embedding, query: string, filter: string): (r: SearchRequest)
    ensures r.searchText == None
    ensures SearchesContentVector(r, embed(query), DefaultNeighbors)
    ensures r.options.filter == Some(filter)
    ensures r.options.size == None
    ensures r.options.select == SelectedFields
    ensures NotSemantic(r.options)
  {
    SearchRequest(None,
      NoOptions.(vectorQueries := [ContentVectorQuery(embed(query), DefaultNeighbors)], filter := Some(filter),
                 select := SelectedFields))
  }

  /** `SimpleHybridSearch`: the query text and its vector together, 3 neighbours, 10 results. */
  function HybridRequest(embed: string -> Embedding, query: string): (r: SearchRequest)
    ensures r.searchText == Some(query)
    ensures SearchesContentVector(r, embed(query), DefaultNeighbors)
    ensures r.options.size == Some(HybridSize)
    ensures r.options.select == SelectedFields
    ensures r.options.filter == None && NotSemantic(r.options)
  {
    SearchRequest(Some(query),
      NoOptions.(vectorQueries := [ContentVectorQuery(embed(query), DefaultNeighbors)], size := Some(HybridSize),
                 select := SelectedFields))
  }

  /** `SemanticHybridSearch`: the hybrid request with 3 results, reranked under the semantic configuration. */
  function SemanticHybridRequest(embed: string -> Embedding, query: string): (r: SearchRequest)
    ensures r.searchText == Some(query)
    ensures SearchesContentVector(r, embed(query), DefaultNeighbors)
    ensures r.options.size == Some(SemanticSize)
    ensures r.options.select == SelectedFields
    ensures r.options.filter == None
    ensures SemanticRanking(r.options, IndexSchema.SemanticSearchConfigName)
  {
    SearchRequest(Some(query),
      NoOptions.(vectorQueries := [ContentVectorQuery(embed(query), DefaultNeighbors)], size := Some(SemanticSize),
                 queryType := Some(Semantic), queryLanguage := Some(EnUs),
                 semanticConfigurationName := Some(IndexSchema.SemanticSearchConfigName),
                 queryCaption := Some(Extractive), queryAnswer := Some(Extractive),
                 queryCaptionHighlightEnabled := Some(true), select := SelectedFields))
  }

  // ---------------------------------------------------------------------------------------
  // The requests against the schema.

  /** A request that searches `contentVector` and selects title, content and category fits the sample index. */
  lemma ContentVectorRequestFits(r: SearchRequest, name: string, vector: Embedding, k: int)
    requires SearchesContentVector(r, vector, k)
    requires r.options.select == SelectedFields
    requires r.options.semanticConfigurationName.Some? ==>
      r.options.semanticConfigurationName.value == IndexSchema.SemanticSearchConfigName
    ensures FitsSchema(r, IndexSchema.GetSampleIndex(name))
  {
    var idx := IndexSchema.GetSampleIndex(name);
    forall q, f | q in r.options.vectorQueries && f in q.fields
      ensures match IndexSchema.FindField(idx, f)
              case None => false
              case Some(field) =>
                field.vectorSearchProfile.Some? &&
                IndexSchema.ResolveProfile(idx, field.vectorSearchProfile.value).Some?
    {
      assert q == ContentVectorQuery(vector, k);
      IndexSchema.SampleFieldLookup(name);
      IndexSchema.SampleProfileResolution(name);
    }
    IndexSchema.SampleDeclaresFields(name);
    assert IndexSchema.ConfigurationNames(idx.semanticConfigurations) == [IndexSchema.SemanticSearchConfigName];
  }

  /**
   * Every request the four strategies build has something to match on and names only fields,
   * profiles and the semantic configuration that the sample index declares.
   */
  lemma RequestsFitSampleIndex(embed: string -> Embedding, name: string, query: string, filter: string, k: int)
    ensures var idx := IndexSchema.GetSampleIndex(name);
      && HasQuery(SingleVectorRequest(embed, query, k)) && FitsSchema(SingleVectorRequest(embed, query, k), idx)
      && HasQuery(FilteredVectorRequest(embed, query, filter)) && FitsSchema(FilteredVectorRequest(embed, query, filter), idx)
      && HasQuery(HybridRequest(embed, query)) && FitsSchema(HybridRequest(embed, query), idx)
      && HasQuery(SemanticHybridRequest(embed, query)) && FitsSchema(SemanticHybridRequest(embed, query), idx)
  {
    ContentVectorRequestFits(SingleVectorRequest(embed, query, k), name, embed(query), k);
    ContentVectorRequestFits(FilteredVectorRequest(embed, query, filter), name, embed(query), DefaultNeighbors);
    ContentVectorRequestFits(HybridRequest(embed, query), name, embed(query), DefaultNeighbors);
    ContentVectorRequestFits(SemanticHybridRequest(embed, query), name, embed(query), DefaultNeighbors);
  }
}
