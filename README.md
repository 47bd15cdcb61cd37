# Threat-intelligence graph pipeline, modelled in Dafny

This project models the core of a pipeline that turns threat-intelligence
PDF reports into a Neo4j knowledge graph, and of the agent that answers
questions over that graph.

- **Indicator extraction** (`src/extraction/indicators.py`) runs a fixed
  registry of 17 (type tag, regular expression) pairs over a chunk of text.
  The registry holds seven fixed kinds and one social-handle kind per
  platform. Each match is normalised by its type's normaliser, and the
  results are de-duplicated on (type, value) in first-appearance order.
- **The graph store** (`src/storage/graph_db.py`) covers `Document`,
  `Chunk`, `Indicator` and `Campaign` nodes and the `PART_OF`,
  `MENTIONED_IN`, `PART_OF_CAMPAIGN` and free-typed indicator
  relationships. Each write (`MERGE ... SET +=`) is a pure transition
  `Apply` on a `Snapshot`. The class `Graph` holds the same fields, and each
  of its methods changes them exactly as `Apply` says. The reads are
  functions of a snapshot: lookup, context, relationships within `hops`,
  the network view, and vector and hybrid search.
- **The canned queries** (`src/queries.py`) are the two-hop neighbourhood,
  social-handle co-mention clusters, indicators across campaigns, and an
  indicator's timeline.
- **The ingestion pipeline** (`src/pipeline.py`) covers three parts:
  - inferring a campaign name from a file name;
  - the writes that loading one PDF issues (`process_pdf`);
  - the loop over a directory listing (`process_pdfs`), including the
    error that ends it.
- **The agent's router** (`src/agent/langgraph_agent.py`) detects an
  indicator in a query and runs the keyword cascade that picks the tool
  and its argument.

The project has eight modules:

- `Collections`: option, result, sorting, and a set enumerated in order.
- `Text`: Python string operations on ASCII.
- `Indicators`.
- `GraphDb`.
- `GraphReads`.
- `Queries`.
- `Pipeline`.
- `Router`.

Three parts of the system are parameters of the model:

- The regular-expression engine is a function from (pattern, text) to the
  list of matched substrings (`Indicators.Engine`). The router's searcher
  is a function from the name of one of its four patterns, and a text, to
  whether there is a match. `Router.RegexPattern` records the text of each
  pattern and `Router.IgnoresCase` the one compiled with `re.I`.
- The PDF reader with its chunker, and the sentence embedder, are functions
  (`Pipeline.Loader`, `Pipeline.Embedder`).
- The database clock (`timestamp()`) is the parameter `now`, and the
  candidates the vector index yields are a list of scored chunks.

Where the code and its design description disagree, the model follows the
code:

- A write whose `MATCH` finds no `Document` (`add_chunk`, the mention part
  of `add_indicator`) does nothing. It does not fail.
- `relationships` matches relationship paths in either direction and may
  return the seed indicator itself: any closed trail of relationships does
  it. The model proves two examples, a self-loop, and two `MENTIONED_IN`
  relationships to the same document that differ in `confidence`.
- The pipeline never passes `firstSeen` or `lastSeen`, so an extracted
  indicator stores neither.
- `process_pdfs` builds `stats` but returns `None`. The model exposes the
  map it builds.
- `clean_campaign_name` raises on a name with no word. Such a file, and
  every file after it, is never loaded.

## Model

| member | source | states |
|---|---|---|
| Indicators.PlatformNameInjective | src/extraction/indicators.py:13-24 | The social platform keys are distinct, so each `social:<platform>` tag names one platform |
| Indicators.TypeNameInjective | src/extraction/indicators.py:26-34 | No two indicator types share a type tag |
| Indicators.RegistryShape | src/extraction/indicators.py:26-34 | The pattern registry has 17 entries, lists every indicator type, and its tags are pairwise distinct |
| Indicators.KeepPhoneChars | src/extraction/indicators.py:41 | The phone normaliser keeps exactly the `+` and digit characters: each one kept as often as it occurs, in order, and nothing else |
| Indicators.Normalize | src/extraction/indicators.py:36-47 | Defined as the normaliser of the type applied to the raw match. Its properties are stated by KeepPhoneChars, SocialKeepsPrefix, DomainNormalForm and NormalizeIdempotent |
| Indicators.SocialKeepsPrefix | src/extraction/indicators.py:46-47 | A social handle not starting with `@` is only lower-cased |
| Indicators.DomainNormalForm | src/extraction/indicators.py:37 | A normalised domain has no upper-case letter and no trimmed punctuation or whitespace at either end |
| Indicators.NormalizeIdempotent | src/extraction/indicators.py:36-47 | Normalising an already normalised value changes nothing, for every type |
| Indicators.ExtractIndicators | src/extraction/indicators.py:49-58 | The method's loop computes exactly the de-duplicated extraction |
| Indicators.Extract | src/extraction/indicators.py:49-58 | Defined as the values, in insertion order, of the dict keyed by (type, value) built from every match of every registry pattern. Its properties are stated by ExtractIndicators, ExtractKeysDistinct, ExtractComplete, ExtractSound, ExtractFirstAppearanceOrder and ExtractDependsOnlyOnMatches |
| Indicators.ExtractKeysDistinct | src/extraction/indicators.py:56-58 | No two results share a (type, value) key |
| Indicators.ExtractComplete | src/extraction/indicators.py:51-58 | Every match of every registry pattern is represented by a result with the same (type, normalised value) |
| Indicators.ExtractSound | src/extraction/indicators.py:51-55 | Every result comes from some match of some registry pattern, and its confidence is 0.9 |
| Indicators.ExtractFirstAppearanceOrder | src/extraction/indicators.py:57-58 | Results are ordered by the first appearance of their key among all matches |
| Indicators.ExtractDependsOnlyOnMatches | src/extraction/indicators.py:49-58 | Two regex engines that agree on the registry's patterns give the same extraction |
| GraphDb.Overlay | src/storage/graph_db.py:42 | `SET n += props`: a non-null value is written, a null value removes the key, and every other key is kept |
| GraphDb.OverlayIdempotent | src/storage/graph_db.py:42 | Overlaying the same properties twice equals overlaying them once |
| GraphDb.Apply | src/storage/graph_db.py:41-87 | Defined as the store after one write; a write that raises leaves the store unchanged. Its properties are stated by the Effect, Error, Idempotent, Grows and Consistent lemmas below |
| GraphDb.UpsertDocumentEffect | src/storage/graph_db.py:41-44 | After an upsert the Document exists, carries the given non-null properties and none of the null ones, keeps its other properties, and no other node or relationship changes |
| GraphDb.UpsertDocumentError | src/storage/graph_db.py:41-44 | An upsert fails exactly when the dict has no `id` or a null `id`, and a failed upsert changes nothing |
| GraphDb.ApplyIdempotent | src/storage/graph_db.py:41-87 | Every write is idempotent: repeating it leaves the store as one application did |
| GraphDb.AddChunkEffect | src/storage/graph_db.py:47-54 | With no such Document, or a null chunk id under an existing Document, nothing changes. Otherwise the Chunk is merged with its properties and linked `PART_OF` the Document, exactly one chunk key is added, and nothing else changes |
| GraphDb.AddIndicatorEffect | src/storage/graph_db.py:57-78 | The indicator exists with the new type and lastSeen. firstSeen is kept once set. The mention keyed by (value, document, confidence, default 0.9) holds the context chunk and timestamp exactly when the Document exists. No other indicator or mention changes, and nothing else in the store changes |
| GraphDb.MentionsKeyedByConfidence | src/storage/graph_db.py:65-75 | Mentioning an indicator in one document with two different confidences gives two distinct `MENTIONED_IN` relationships |
| GraphDb.RelateEffect | src/storage/graph_db.py:81-87 | The typed relationship exists afterwards exactly when it did before or both indicators exist, and nothing else changes |
| GraphDb.ApplyAllGrows | src/storage/graph_db.py:41-87 | No sequence of writes removes a node, a relationship or a campaign |
| GraphDb.ApplyAllConsistent | src/storage/graph_db.py:41-87 | Every write keeps relationships between existing nodes, keeps null out of keys and properties, and keeps every document and chunk holding its key as its `id` property |
| GraphDb.FirstSeenWriteOnce | src/storage/graph_db.py:61 | Once an indicator's firstSeen is set, no later sequence of writes changes it |
| GraphDb.Graph.InitSchema | src/storage/graph_db.py:9-38 | The schema afterwards is the old schema plus every schema statement (`IF NOT EXISTS`), and the data is unchanged |
| GraphDb.Graph.UpsertDocument | src/storage/graph_db.py:41-44 | The store becomes `Apply` of the upsert, and the method reports the error it raises |
| GraphDb.Graph.AddChunk | src/storage/graph_db.py:47-54 | The store becomes `Apply` of the chunk write, and the method reports the missing-id error |
| GraphDb.Graph.AddIndicator | src/storage/graph_db.py:57-78 | The store becomes `Apply` of the indicator write |
| GraphDb.Graph.Relate | src/storage/graph_db.py:81-87 | The store becomes `Apply` of the relationship write |
| GraphDb.Graph.MergeCampaign | src/pipeline.py:42 | The store becomes `Apply` of the campaign merge |
| GraphDb.Graph.LinkCampaign | src/pipeline.py:43 | The store becomes `Apply` of the `PART_OF_CAMPAIGN` merge, which does nothing when the Document or the Campaign is missing |
| GraphReads.IndicatorLookup | src/storage/graph_db.py:116-119 | Defined as the values of the indicators whose type is `typ`. Its properties are stated by IndicatorLookupPartition and IndicatorLookupAfterAdd |
| GraphReads.IndicatorLookupPartition | src/storage/graph_db.py:116-119 | An indicator is returned under at most one type |
| GraphReads.IndicatorLookupAfterAdd | src/storage/graph_db.py:116-119 | After `add_indicator` the indicator is found under the type it was given and under no other type; no other indicator moves |
| GraphReads.ChunkTextOf | src/storage/graph_db.py:124-125 | The optional match gives a chunk text only when the mention names a chunk that exists and has a text |
| GraphReads.ContextForIndicator | src/storage/graph_db.py:121-129 | Defined as one row (document, chunk text, confidence, timestamp) per `MENTIONED_IN` edge of the indicator. Its properties are stated by ContextRowsAreMentions and ContextMissingChunk |
| GraphReads.ContextRowsAreMentions | src/storage/graph_db.py:121-129 | The context rows correspond one to one with the indicator's mentions |
| GraphReads.ContextMissingChunk | src/storage/graph_db.py:124-125 | A mention without an existing context chunk yields a null chunk text |
| GraphReads.Relationships | src/storage/graph_db.py:131-137 | Defined as the indicators reached from the seed by 1 to `hops` relationships. Its properties are stated by RelationshipsSpec, RelationshipsUnknownSeed, RelationshipsMonotonic and the two SeedReturned lemmas |
| GraphReads.RelationshipsSpec | src/storage/graph_db.py:131-137 | An indicator is returned exactly when a trail of 1 to `hops` relationships, in any direction and none reused, joins it to the seed |
| GraphReads.RelationshipsUnknownSeed | src/storage/graph_db.py:131-137 | An unknown seed has no related indicators |
| GraphReads.RelationshipsMonotonic | src/storage/graph_db.py:131-137 | Allowing more hops never returns fewer indicators |
| GraphReads.SeedReturnedThroughLoop | src/storage/graph_db.py:133 | A self-relationship makes the seed part of its own one-hop result |
| GraphReads.SeedReturnedThroughParallelMentions | src/storage/graph_db.py:133 | Two mentions of the seed in one document with different confidences make the seed part of its own two-hop result |
| GraphReads.Network | src/storage/graph_db.py:139-160 | The loop over the paths computes the node table and the link list of the first 500 paths |
| GraphReads.NetworkShape | src/storage/graph_db.py:139-160 | Network nodes have distinct ids. Each node shows its view and lies on a consumed path, and every node of every consumed path appears. There is one link per relationship of each consumed path, and every such relationship is linked |
| GraphReads.NetworkLinksAreEdges | src/storage/graph_db.py:141-160 | Every link of a network built from matched paths is a relationship of the store |
| GraphReads.ViewValue | src/storage/graph_db.py:151 | An indicator node shows its own value. A campaign node shows null, because its name is under neither `value` nor `id`. A document or chunk node the store holds shows its `value` property when it has one, and otherwise its key (a consistent store keeps each key as the node's `id`). A document or chunk node the store does not hold shows its key |
| GraphReads.VectorSearch | src/storage/graph_db.py:90-99 | The candidates, a permutation ordered by descending score |
| GraphReads.Filtered | src/storage/graph_db.py:106 | Every result passes the filter and is a candidate, and every passing candidate is returned |
| GraphReads.FilteredCount | src/storage/graph_db.py:106 | The filter keeps each passing candidate exactly as often as it occurs among the candidates, and drops the others |
| GraphReads.HybridSearch | src/storage/graph_db.py:101-113 | Defined as the filtered candidates sorted by descending score, cut to `k`. Its properties are stated by HybridSearchSpec, HybridSearchTop, HybridSearchAllWhenFew and HybridSearchIgnoresTextOnNonNegativeScores |
| GraphReads.HybridSearchSpec | src/storage/graph_db.py:101-113 | Exactly min(`k`, number of passing candidates) results, in descending score order, each a candidate that passes the filter |
| GraphReads.HybridSearchTop | src/storage/graph_db.py:101-113 | The results are a top-`k` of the filtered candidates: there are min(`k`, number passing) of them, and no candidate left out scores higher than one returned |
| GraphReads.HybridSearchAllWhenFew | src/storage/graph_db.py:101-113 | With at most `k` candidates passing the filter, all of them are returned |
| GraphReads.HybridSearchIgnoresTextOnNonNegativeScores | src/storage/graph_db.py:106 | When no score is negative, the keyword test has no effect |
| Queries.GraphTwoHop | src/queries.py:5-7 | The indicators joined to the seed by a trail of one or two relationships |
| Queries.CoMentionsSymmetric | src/queries.py:16-18 | The co-mention count of (a, b) equals that of (b, a) |
| Queries.CoMentionsCount | src/queries.py:15-18 | The weight `count(*)` of a pair (a, b) is the sum over the documents of the number of mentions of a times the number of mentions of b in each |
| Queries.ClusterRowsSymmetric | src/queries.py:15-18 | A row (a, b, w) is present exactly when (b, a, w) is |
| Queries.ClustersByHandle | src/queries.py:10-21 | Exactly min(100, number of grouped rows) distinct cluster rows, by descending weight |
| Queries.ClustersByHandleTop | src/queries.py:18 | A row is left out only when there are more than 100 rows, and then it weighs no more than any returned row |
| Queries.LinkCampaignAddsCampaign | src/queries.py:29-30 | Linking a document to a campaign adds that campaign to every indicator the document mentions, and to no other |
| Queries.AcrossCampaigns | src/queries.py:24-35 | Defined as each indicator whose mentioning documents lie in more than one campaign, with the set of those campaigns (CampaignsOf). Its properties are stated by LinkCampaignAddsCampaign and AcrossCampaignsGrows |
| Queries.AcrossCampaignsGrows | src/queries.py:24-35 | An indicator reported across campaigns is still reported after any further writes, with at least the same campaigns |
| Queries.TimelineKeys | src/queries.py:43-44 | The mention edges of the indicator in timestamp order, each edge exactly once |
| Queries.Timeline | src/queries.py:38-47 | One row per mention edge of the indicator, in non-decreasing timestamp order: the rows of the ordered edges, taken one by one |
| Queries.TimelineAfterMention | src/queries.py:38-47 | A new mention in an existing document adds its (document, timestamp) row, and the timeline grows by one unless that mention already existed |
| Queries.MentionsAfterMention | src/queries.py:43 | Mentioning an indicator in an existing document adds exactly that mention, with the write's timestamp, to its mentions |
| Pipeline.Basename | src/pipeline.py:16 | The part of the path after its last `/` |
| Pipeline.Root | src/pipeline.py:16 | The extension-less root is a prefix of the name |
| Pipeline.RootSpec | src/pipeline.py:16 | The root stops before the last `.`, unless only dots precede that `.` (no extension) |
| Pipeline.Unseparate | src/pipeline.py:18 | `_` and `-` become spaces and every other character is kept |
| Pipeline.KeywordAt | src/pipeline.py:20 | The length of the campaign keyword (`storm[-\s]?\d+`, `doppelganger`, `secondaryops`, any case) at a position, or 0 when none starts there |
| Pipeline.FindKeyword | src/pipeline.py:20-21 | The leftmost position where a keyword starts, or none when no position starts one |
| Pipeline.KeywordNameSpec | src/pipeline.py:22 | The keyword name keeps the match's letters with spaces turned into `-`, compared ignoring case |
| Pipeline.LastWordNameSpec | src/pipeline.py:24 | The fallback name is missing exactly when the base is all whitespace. Otherwise it is the last word, ignoring case |
| Pipeline.CleanCampaignNameSeparators | src/pipeline.py:16-18 | File names that differ only in `_`, `-` or space separators get the same campaign name |
| Pipeline.CleanCampaignNameCapitalised | src/pipeline.py:22-24 | A campaign name has no lower-case first letter and no upper-case letter after it |
| Pipeline.CleanCampaignName | src/pipeline.py:14-24 | Defined as the keyword name when a campaign keyword occurs, else the capitalised last word, else none (the source raises). Its properties are stated by KeywordNameSpec, LastWordNameSpec and the CleanCampaignName lemmas |
| Pipeline.MentionOps | src/pipeline.py:51-52 | One `add_indicator` per extracted indicator, in order, naming the chunk as context |
| Pipeline.LoadOps | src/pipeline.py:45-52 | The chunk loop writes no Document |
| Pipeline.ProcessPdf | src/pipeline.py:27-54 | The store after the call is the old store after the Document upsert, the campaign merge and link, and the chunk and indicator writes for each pair of `zip(chunks, vecs)`. The schema is unchanged, and the chunk count is returned |
| Pipeline.StoreDocument | src/pipeline.py:38-43 | Upserts the Document and, for a non-empty campaign, merges the Campaign and links the Document to it |
| Pipeline.StoreChunks | src/pipeline.py:45-52 | Applies the writes of the first `n` chunk-vector pairs in order |
| Pipeline.StoreChunk | src/pipeline.py:46-52 | Applies the chunk write followed by one indicator write per extracted indicator |
| Pipeline.StoreMentions | src/pipeline.py:51-52 | Applies one indicator write per indicator, in order |
| Pipeline.MentionOpsEffect | src/pipeline.py:51-52 | Every indicator of the chunk is mentioned in the document afterwards |
| Pipeline.ChunkOpsEffect | src/pipeline.py:46-52 | After one pair's writes, the chunk is stored `PART_OF` the document with its text, and each of its indicators is mentioned in the document with that chunk as context and the write's timestamp |
| Pipeline.LoadOpsEffect | src/pipeline.py:45-52 | After the loop every paired chunk is loaded, with its indicators mentioned |
| Pipeline.ProcessPdfEffect | src/pipeline.py:27-54 | After loading a PDF, the Document exists with its path. It is linked to the campaign when one is given. Every paired chunk and all its extracted indicators are in the store |
| Pipeline.DocumentEffect | src/pipeline.py:38-43 | After the first writes the Document exists with its path and is linked to a non-empty campaign |
| Pipeline.JoinPath | src/pipeline.py:63 | `os.path.join` ends with the name; an absolute name replaces the directory; otherwise the directory comes first, and a `/` is inserted between them exactly when the directory is non-empty and does not already end in `/` |
| Pipeline.ProcessPdfs | src/pipeline.py:57-65 | The store receives the writes of every loaded file in listing order; the schema is unchanged; the stats are the run's; the result fails exactly when the run stopped on a name without a campaign word |
| Pipeline.LoadListing | src/pipeline.py:59-65 | The same as `ProcessPdfs`, for any campaign namer |
| Pipeline.ProcessFile | src/pipeline.py:63-65 | Loads one file from the data directory and returns its chunk count |
| Pipeline.RunOpsSnoc | src/pipeline.py:59-65 | Loading one more file applies its writes after those of the files before it |
| Pipeline.PdfsRunStopped | src/pipeline.py:59-65 | Once a run has failed, later names change nothing |
| Pipeline.PdfsRunStatsKeys | src/pipeline.py:60-65 | Every stats key is the document id of a loaded file |
| Pipeline.PdfsRunLoaded | src/pipeline.py:62 | Only `.pdf` names of the listing are loaded. A successful run loads all of them in listing order |
| Pipeline.PdfsRunComplete | src/pipeline.py:60-65 | After a successful run every `.pdf` name has its document id in the stats |
| Pipeline.PdfsRunSucceeds | src/pipeline.py:62-64 | The run succeeds exactly when every `.pdf` name yields a campaign name |
| Pipeline.PdfsRunFailsAt | src/pipeline.py:62-64 | A failed run names the first `.pdf` name without a campaign word |
| Pipeline.OnlyPdfs | src/pipeline.py:62 | Exactly the names of the listing ending in `.pdf` in any case |
| Pipeline.PdfsRunOnlyPdfs | src/pipeline.py:62 | Names not ending in `.pdf` have no effect on the run |
| Pipeline.RunOpsDocuments | src/pipeline.py:59-65 | Every loaded file's Document is in the store afterwards |
| Pipeline.PdfsRunDocuments | src/pipeline.py:57-65 | After a successful run every `.pdf` name of the listing has its Document in the store |
| Router.DetectIndicator | src/agent/langgraph_agent.py:14-21 | True exactly when the searcher reports a match for one of the URL, IP, e-mail or social patterns |
| Router.RouterFn | src/agent/langgraph_agent.py:23-56 | Defined as the keyword cascade cluster, timeline, network, indicator or context, then search. Its properties are stated by the Route lemmas below |
| Router.WithoutShorter | src/agent/langgraph_agent.py:36-50 | Removing a present keyword shortens the query by at least the keyword, and the result has no whitespace at either end |
| Router.RouteClusters | src/agent/langgraph_agent.py:24-29 | The clusters action is taken exactly when the lower-cased query contains `cluster` |
| Router.RouteTimeline | src/agent/langgraph_agent.py:34-38 | The timeline action is taken exactly when `timeline` occurs and `cluster` does not. It keeps the original query and looks up the lower-cased query with every `timeline` removed and then stripped, which is shorter by at least the keyword |
| Router.RouteNetwork | src/agent/langgraph_agent.py:39-42 | The network action is taken exactly when `network` occurs and no earlier keyword does. Its indicator is the lower-cased query, and its value is that query with every `network` removed and then stripped |
| Router.RouteContext | src/agent/langgraph_agent.py:45-52 | The context action is taken exactly when no earlier keyword occurs and the query holds an indicator or `context`. The value is the lower-cased query when `context` is absent, and that query with every `context` removed and then stripped when it is present |
| Router.RouteSearch | src/agent/langgraph_agent.py:53-56 | Otherwise the router searches the lower-cased query with k = 2 and answers with the first hit. It fails exactly when there is no hit |
| Router.RouteFailure | src/agent/langgraph_agent.py:53-56 | Only the search branch can fail, and only on an empty result |
| Router.RouteAction | src/agent/langgraph_agent.py:24-56 | The action of every reply, and whether the router fails, agree with a separate keyword cascade over the lower-cased query, the indicator flag and the search hits |
| Router.RouteIgnoresCase | src/agent/langgraph_agent.py:24-56 | Queries equal once lower-cased, and agreeing on whether they hold an indicator, take the same action |

## Left out

- Regular-expression semantics: each pattern is kept as text, and matching
  is a parameter (`Engine`, and the router's `Searcher`, which is handed
  the pattern by name). What a pattern matches is not modelled, and
  neither are overlapping matches or `re.IGNORECASE` inside the engine.
- Unicode: lower-casing, `capitalize`, `str.split` whitespace and `\d`
  are modelled on ASCII. Python applies the Unicode tables.
- The vector index: `db.index.vector.queryNodes` and cosine similarity
  are not computed. The model starts from the scored candidates the index
  yields, and `$k` limits them only inside the index.
- `EMBED_DIM` and the embedding vectors' dimension are not checked.
- The Neo4j driver, sessions, transactions and concurrency are not
  modelled. Each write is one atomic transition.
- Row order of queries without `ORDER BY` is not modelled: those results
  are sets. Ties in `ORDER BY` are broken by an unspecified fixed
  enumeration.
- `timestamp()` is the parameter `now`. One value serves all writes of one
  `process_pdf` or `process_pdfs` call.
- PDF reading (`ingest_pdf`), chunking (`chunk_text`) and embedding are
  parameters. Their own behaviour is not part of this model.
- `settings.data_dir` is the parameter `dir`.
- `print`, `tqdm` progress bars and the commented-out branches are left
  out.
- The agent's tools are not run by the router. A route records the tool
  and the argument it would be called with, and the search tool is a
  function from (query, k) to the texts of the hits.
- `Graph.__init__` and `close` only open and close the driver and are not
  modelled.
- `GraphReads.NetworkOf` takes the paths the database returns as a
  parameter. They are tied to the seed and `hops` only by
  `NetworkLinksAreEdges`, for paths that are matched trails. Which
  matching paths the database returns, and in what order, is not modelled.
- A missing `value` or `type` key in the dict `add_indicator` receives
  (a `KeyError`), and a `value` of `None`, are not modelled: an
  `IndicatorInput` always has a string value and a type.
- An explicit `confidence` of `None` is not modelled. The database would
  refuse to `MERGE` on a null property. `IndicatorInput.confidence` only
  tells a given number apart from an absent key.
- `hops` is a `nat`. The source splices a negative `hops` into
  `[*1..hops]`, and the database rejects that statement. No caller passes
  a negative value.
- `hybrid_search` on a chunk whose `text` is not a string: Cypher's
  `toLower` raises an error there. The model lets such a chunk pass only on
  its score, as it does for a chunk without text.
- `relate` splices its relationship type into the Cypher text. The model
  treats the type as a plain name; a type that changes the statement's
  meaning is not modelled.
- `Pipeline.ProcessPdfs`: the source returns `None` and discards `stats`.
  The method returns the map it builds, plus whether the loop ended on a
  raised error.
- `Pipeline.ProcessPdfs`: only the error the pipeline itself raises is
  modelled. Errors raised by PDF reading or the database are not.
- `Pipeline.LoadListing` and the run lemmas hold for any campaign namer.
  `ProcessPdfs` instantiates them with `CleanCampaignName`, and the same
  holds for the extractor and `extract_indicators`.
