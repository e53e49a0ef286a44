# Vector search demo over Azure AI Search — Dafny model

This project models the logic of the console demo in `code/Program.cs`. The demo builds an Azure AI Search index for documents that carry text and embedding vectors. It fills in the vectors of sample documents and queries the index four ways. Everything around that logic is a parameter:

- the embedding service is an uninterpreted function `embed: string -> Embedding` over an opaque vector type;
- the search service is a function from a request to a response or a failure.

The model has six modules, one file each:

| file | module | what it models |
|---|---|---|
| `values.dfy` | `Values` | null / not-set (`Option`), thrown exceptions (`Result`), the values a document dictionary holds, and `?.ToString() ?? string.Empty` |
| `schema.dfy` | `IndexSchema` | the `SearchIndex` value `GetSampleIndex` returns, name resolution inside an index, and what makes an index well formed |
| `enrichment.dfy` | `Enrichment` | `GetSampleDocumentsAsync`: a loop over mutable dictionaries (a `Document` class), written in place, with a copy of each appended to the output |
| `requests.dfy` | `SearchRequests` | the search text and `SearchOptions` each of the four strategies builds |
| `results.dfy` | `SearchResults` | the result loops: counting, the lines printed per result, answers and captions, and which exceptions escape |
| `strategies.dfy` | `Strategies` | the four strategies: build the request, call the service, print |

Printed output is modelled as a sequence of lines. Each line is a banner, a labelled value (numbered `Result n - ` in `SingleVectorSearch`), or the final total. It is not modelled as formatted text.

Three facts about the code that a reader might not expect:

- The code rejects no document for an empty title. Enrichment fails only when `title` or `content` is missing.
- Nothing checks a vector's length against the 1536 dimensions.
- The code declares `content` filterable (`code/Program.cs:463`).

## Model

| member | source | states |
|---|---|---|
| `IndexSchema.GetSampleIndex` | code/Program.cs:430-482 | the index under the caller's name, with six fields, one vector profile, one HNSW algorithm configuration and one semantic configuration; the `Sample…` lemmas below state its contents |
| `IndexSchema.SampleFieldNamesDistinct` | code/Program.cs:459-477 | the index has exactly six fields, named id, title, content, titleVector, contentVector, category in that order, and the names are distinct |
| `IndexSchema.SampleFieldLookup` | code/Program.cs:461-476 | looking up each of the six names finds exactly the field its initialiser builds |
| `IndexSchema.SampleIndexFieldFlags` | code/Program.cs:461-476 | only `id` is a key; `id` is filterable, sortable and facetable; title adds filterable and sortable; content adds filterable only; both vector fields are searchable only; category is searchable, filterable, sortable and facetable |
| `IndexSchema.SampleIndexKey` | code/Program.cs:461 | the key fields are exactly [id], and the key holds strings |
| `IndexSchema.SampleVectorFieldNames` | code/Program.cs:464-475 | exactly two fields carry a vector profile: titleVector, then contentVector |
| `IndexSchema.SampleVectorFieldsShaped` | code/Program.cs:464-475 | each vector field is a float collection with dimension 1536 and profile `my-vector-profile`; a field has a dimension exactly when it has a profile |
| `IndexSchema.SampleProfileResolution` | code/Program.cs:433-443 | there is one profile and one algorithm, and `my-vector-profile` resolves to the HNSW configuration `my-hnsw-vector-config` |
| `IndexSchema.SampleDeclaresFields` | code/Program.cs:459-477 | title, content and category, the fields every search selects, are declared |
| `IndexSchema.SampleSemanticFieldsResolve` | code/Program.cs:446-456 | every field the semantic configuration names is a declared searchable string field |
| `IndexSchema.SampleIndexWellFormed` | code/Program.cs:430-482 | the index is the caller's name; its field, profile, algorithm and configuration names are distinct; it has one string key; vector fields are shaped consistently; every profile and algorithm reference resolves; every semantic field resolves |
| `IndexSchema.SampleIndexSemanticConfiguration` | code/Program.cs:446-456 | there is exactly one semantic configuration, `my-semantic-config`, with title field title, content fields exactly [content] and keyword fields exactly [category] |
| `IndexSchema.VectorFieldResolvesUniquely` | code/Program.cs:442-443 | in any well-formed index, a vector field's profile reference leads to exactly one declared profile, and from it to exactly one algorithm configuration |
| `IndexSchema.KeyFieldNamesMembers` | code/Program.cs:461 | a name is listed as a key exactly when some key field carries it |
| `IndexSchema.VectorFieldNamesMembers` | code/Program.cs:464-475 | a name is listed as a vector field exactly when some field with a vector profile carries it |
| `IndexSchema.DeclaresFieldsMembers` | code/Program.cs:459-477 | the recursive field-declaration check holds exactly when every listed name is a declared field |
| `IndexSchema.IndexOfDistinct` | code/Program.cs:442-443 | among distinct names, looking a declared name up finds its own position |
| `IndexSchema.FindField` | code/Program.cs:459-477 | a field found by name is declared under that name; when none is found, no declared field has that name |
| `IndexSchema.FindProfile` | code/Program.cs:442 | as `FindField`, for vector profiles |
| `IndexSchema.FindAlgorithm` | code/Program.cs:443 | as `FindField`, for algorithm configurations |
| `IndexSchema.FindConfiguration` | code/Program.cs:448-456 | as `FindField`, for semantic configurations |
| `Enrichment.MissingKey` | code/Program.cs:497-498 | no key is missing exactly when both title and content are present; title is reported when it is missing, since it is read first, and content exactly when title is present and content is not |
| `Enrichment.Enriched` | code/Program.cs:497-511 | one dictionary after its iteration, defined only when title and content are present; `EnrichedContents` and `EnrichedIdempotent` state what it holds |
| `Enrichment.EnrichedContents` | code/Program.cs:497-511 | enrichment adds exactly titleVector and contentVector, holding the embeddings of the title and content texts, and keeps every other entry; a null text is embedded as the empty string |
| `Enrichment.EnrichedIdempotent` | code/Program.cs:502-511 | enriching an already enriched dictionary changes nothing |
| `Enrichment.EnrichAll` | code/Program.cs:495-519 | the whole list enriched or the first failure: on success the output has the input's length, and a failure always names title or content; `EnrichAllSucceeds` and `EnrichAllFails` give the rest |
| `Enrichment.FirstMissing` | code/Program.cs:495-498 | the position of the first dictionary lacking title or content; every dictionary before it has both |
| `Enrichment.EnrichAllSucceeds` | code/Program.cs:495-519 | the whole list is enriched exactly when no dictionary lacks a key; the output then has the input's length and order, entry i being the enrichment of input i |
| `Enrichment.EnrichAllFails` | code/Program.cs:497-498 | otherwise the failure is the missing key of the first dictionary lacking one |
| `Enrichment.EnrichDocument` | code/Program.cs:497-511 | one iteration: a missing title or content throws before anything is written; otherwise the dictionary becomes its enrichment |
| `Enrichment.GetSampleDocuments` | code/Program.cs:490-520 | the result is the list-level enrichment of the inputs as they were. Every input dictionary up to the first failing one is enriched in place; the rest are untouched. On success, output i equals the updated input i |
| `Enrichment.CurrentEntry` | code/Program.cs:495-498 | a dictionary listed again is found already enriched, which changes neither whether it has both texts nor its enrichment |
| `Enrichment.AdvanceStep` | code/Program.cs:508-514 | one iteration updates exactly the current dictionary (and its repeats) and appends its copy to the output |
| `Enrichment.StopsAt` | code/Program.cs:497-498 | the loop stops at the first dictionary lacking a key, with that key's error |
| `Enrichment.Finished` | code/Program.cs:515-519 | after the last iteration every dictionary is enriched, matching the list-level enrichment |
| `SearchRequests.SingleVectorRequest` | code/Program.cs:244-249 | no search text; one vector query over [contentVector] only with the query's embedding and k neighbours; size k; select title, content, category; no filter; no semantic options |
| `SearchRequests.FilteredVectorRequest` | code/Program.cs:291-298 | no search text; one vector query over [contentVector] with 3 neighbours; the caller's filter verbatim; no size; same selection; no semantic options |
| `SearchRequests.HybridRequest` | code/Program.cs:325-332 | the query as search text; one vector query over [contentVector] with 3 neighbours; size 10; same selection; no filter; no semantic options |
| `SearchRequests.SemanticHybridRequest` | code/Program.cs:363-376 | the query as search text; one vector query over [contentVector] with 3 neighbours; size 3; semantic query type in en-US under `my-semantic-config`; extractive captions and answers; caption highlighting on; same selection |
| `SearchRequests.ContentVectorRequestFits` | code/Program.cs:459-477 | a request searching contentVector and selecting title, content and category names only what the sample index declares |
| `SearchRequests.RequestsFitSampleIndex` | code/Program.cs:363-374 | each of the four requests has something to match on and names only fields, profiles and the semantic configuration the sample index declares |
| `SearchResults.CaptionLine` | code/Program.cs:397-410 | the caption line of a semantic result; `CaptionChoice` states which caption and which text it shows |
| `SearchResults.HitSteps` | code/Program.cs:391-411 | the writes of one iteration, in the source's order: the semantic loop here, the numbered loop at lines 265-270 and the plain loop at lines 304-307; `HitOutcome`, `SemanticCaption` and `NoCaptionsOutsideSemantic` state what they print and throw |
| `SearchResults.HitOutcome` | code/Program.cs:265-270 | printing a result throws exactly when its document is null or lacks title, content or category. The exception is the null dereference, or the missing key in reading order. The result prints only result lines |
| `SearchResults.Walk` | code/Program.cs:260-271 | the whole result loop, result i numbered i from 1, stopping at the first exception; `WalkFault`, `WalkResultLines`, `WalkStops` and `WalkStep` state its properties |
| `SearchResults.FirstBad` | code/Program.cs:260-271 | the position of the first result that cannot be printed; every result before it can |
| `SearchResults.WalkFault` | code/Program.cs:260-271 | the result loop ends with the exception of the first unprintable result, and with none when every result is printable |
| `SearchResults.WalkResultLines` | code/Program.cs:260-271 | the result loop prints nothing but result lines: no answer lines and no totals |
| `SearchResults.WalkStops` | code/Program.cs:260-271 | once an exception has left the loop, later results print nothing |
| `SearchResults.WalkStep` | code/Program.cs:260-262 | a running loop prints result n+1 after the earlier ones, with number n+1; if it throws, it is the first unprintable result and the output is final |
| `SearchResults.WalkResults` | code/Program.cs:259-271 | the loop prints exactly the walk of the results; `count` is the number of results when none throws, and otherwise counts the throwing one too |
| `SearchResults.PlainReport` | code/Program.cs:259-273 | the non-semantic printing: the loop, then the total unless an exception escaped; `PlainOutcome` states its properties |
| `SearchResults.PlainOutcome` | code/Program.cs:259-273 | the total is printed exactly when every result is printable; it equals the number of results iterated, is the last line and the only total; otherwise the first unprintable result's exception escapes; no results give `Total Results: 0` alone |
| `SearchResults.PresentResults` | code/Program.cs:300-309 | the printing code of the three non-semantic strategies produces that report |
| `SearchResults.AnswerLines` | code/Program.cs:382-386 | the lines of the answer loop; `AnswerLinesAt` and `AnswerLinesAreAnswers` state them |
| `SearchResults.AnswerLinesAt` | code/Program.cs:382-386 | each query answer prints its highlights line, then its text line, answers in order, two lines each |
| `SearchResults.AnswerLinesAreAnswers` | code/Program.cs:382-386 | every line the answer loop prints is an answer line |
| `SearchResults.SemanticReport` | code/Program.cs:378-418 | the semantic printing: headings, answers, the loop, the total, and the `catch (NullReferenceException)`; `SemanticOutcome`, `SemanticAnswersFirst` and `SemanticCaption` state its properties |
| `SearchResults.SemanticOutcome` | code/Program.cs:378-418 | null answers, or a null document in a result, end the semantic search with `Total Results: 0`; a missing key escapes; otherwise the total is the number of results, printed last and once |
| `SearchResults.SemanticAnswersFirst` | code/Program.cs:381-395 | every answer line precedes every labelled line of a result |
| `SearchResults.SemanticCaption` | code/Program.cs:391-411 | a printable semantic result prints five labelled lines, none a caption, followed by at most one caption line, the one `CaptionLine` picks |
| `SearchResults.CaptionChoice` | code/Program.cs:397-410 | a caption line exists exactly when captions are non-null and non-empty, and depends on the first caption only. It shows the highlights when they are neither null nor empty, and the text otherwise |
| `SearchResults.NoCaptionsOutsideSemantic` | code/Program.cs:304-307 | the numbered and plain layouts never print a caption line |
| `SearchResults.PresentSemantic` | code/Program.cs:378-418 | the printing code of the semantic strategy, with its answer loop and its `catch (NullReferenceException)`, produces the semantic report |
| `Strategies.ReportOf` | code/Program.cs:257-273 | what a strategy prints for the service's reply: nothing and the failure for a failed call, otherwise its layout's report; `FailedCallEscapes` states this |
| `Strategies.FailedCallEscapes` | code/Program.cs:257 | a failed service call prints nothing and escapes; a successful one never reports a failed call |
| `Strategies.Present` | code/Program.cs:257-273 | the printing after the call produces the report for the strategy's layout |
| `Strategies.SingleVectorSearch` | code/Program.cs:234-274 | prints the numbered report of the service's reply to `SingleVectorRequest`, with k defaulting to 3 |
| `Strategies.SingleVectorSearchWithFilter` | code/Program.cs:285-310 | prints the plain report of the reply to `FilteredVectorRequest` |
| `Strategies.SimpleHybridSearch` | code/Program.cs:319-344 | prints the plain report of the reply to `HybridRequest` |
| `Strategies.SemanticHybridSearch` | code/Program.cs:355-419 | prints the semantic report of the reply to `SemanticHybridRequest` |

## Left out

- The `Main` menu loop, prompts, colours, parsing of the user's choice and the exit handling (`code/Program.cs:28-133`): interactive console I/O.
- Reading `local.settings.json`, loading and deserialising the sample data file, creating the clients, `CreateOrUpdateIndex` and `IndexDocumentsAsync`: configuration, file and service plumbing.
- `GenerateEmbeddings` (`code/Program.cs:137-146`) is the uninterpreted total function `embed`. Its float vectors are the opaque type `Embedding`, and its failures are not modelled.
- `Gpt3Chat` and `ChatMyData` (`code/Program.cs:155-224`): HTTP calls to a chat model and ad-hoc walking of its JSON reply.
- The service's own behaviour is not modelled: nearest-neighbour ordering, fusion of text and vector scores, semantic reranking, and filter syntax. The reply to a request is an arbitrary response or a failure.
- Async execution, cancellation and concurrency: every await is modelled as an ordinary call.
- The debug lines `SingleVectorSearch` prints before searching (`code/Program.cs:239-240`, `252-255`), the progress lines of `GetSampleDocumentsAsync` (`code/Program.cs:493`, `517`) and blank lines: console output that carries no result.
- HNSW tuning parameters: the code sets none.
- The two vector fields' `IsKey`, `IsFilterable`, `IsSortable` and `IsFacetable` are nullable, and the code leaves them unset (null), so the service chooses their values. The model reads them as false.
- Exceptions thrown inside the `try` of `SemanticHybridSearch` but before the response arrives (a null reference from the embedding call, say) are not modelled. A failed search call is modelled, and it escapes the `try`.
- Null elements inside the answer or caption lists are not modelled: an answer or caption is always an object.
- `GetSampleDocuments`: the output holds snapshots of the dictionaries after their own iteration, as `new SearchDocument(document)` copies them. A dictionary listed twice is enriched twice to the same contents, so the model does not need to track the later write.
