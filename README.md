# codebase-patterns-mcp, modelled in Dafny

codebase-patterns-mcp gives semantic search over the Go functions of a set of repositories. It has a write path and a read path:

- **Write path.** An indexer walks the repositories and keeps production `.go` files. A tree-sitter-based parser extracts every function and method. Each one gets a code-type category and a record of text plus metadata. The records' texts are embedded in batches through an embedding provider and stored in a Chroma collection.
- **Read path.** Queries come from two front ends. A JSON-RPC server lets an assistant call the `search_code` and `get_stats` tools and read `codebase://` resources. A command-line search prints the ranked results.
- **Measurement.** Three scripts sit beside the pipeline:
  - an evaluation framework computes recall@k, precision@k and the reciprocal rank over a test set;
  - a benchmark compares the MCP search with a manual grep search;
  - a LlamaIndex starter chunks Go files by function and enriches document metadata.

This project models the deterministic core of each of these and proves what the code promises about it. There is one Dafny module per source file:

| module | file | models |
|---|---|---|
| `GoParser` | go_parser.dfy | `src/parser.py`. The syntax tree is a datatype; traversal is pre-order; a method with a loop collects the comment siblings |
| `Indexer` | indexer.dfy | `src/indexer.py`. The production-file filter and its skip counters; the code-type classifier; the index record; the crawl statistics (the `CodeIndexer` class) |
| `Embeddings` | embeddings.dfy | `src/embeddings.py`. Batching, one provider call per batch, `None` padding for a failed batch |
| `VectorStore` | vector_store.dfy | `src/vector_store.py`. The collection is a class over a sequence of entries; also the write path, result shaping, statistics and reset |
| `McpServer` | mcp_server.dfy | `src/mcp_server.py`. Dispatch, JSON-RPC 2.0 envelopes and error codes, tools, resources, the per-line decision of the stdin loop |
| `SearchCli` | search_cli.dfy | `search_cli.py`. Flag scanning, the display block of a result, and the run of `main` as the texts it prints and its exit code |
| `Evaluation` | evaluation.dfy | `evaluation-framework.py`. The metrics; the per-metric, per-category aggregation; the recall@5 verdict; the scoring template |
| `Benchmark` | benchmark.dfy | `benchmark/benchmark.py`. Reading the count back from the search output; the manual-search counts; the aggregation over the loaded `*.json` files, with its per-method statistics and the exceptions it raises |
| `LlamaStarter` | llamaindex_starter.dfy | `llamaindex-starter.py`. `Config`; package, function and docstring extraction; `_chunk_go_files` over `Document` objects; `_enrich_metadata` |

Four support modules model Python's own behaviour:

- `Wrappers` has `Option` for `None` and `Result` for a raised exception.
- `Strings` has `str` operations: `find`, `in`, slicing, `split`/`join`, `strip`, `lower`, `int()`/`str()`.
- `Values` has JSON/Python values, truthiness, `str()` and `dict.get`.
- `Sequences` has generic sequence facts.

The libraries the code calls become inputs or function-typed parameters:

- the tree-sitter parser's tree;
- the embedding provider;
- Chroma's nearest-neighbour answer;
- `json.loads`;
- the directory listing and file reads.

A Python dictionary that is built or read becomes a Dafny `map`. The exception is a dictionary whose insertion order is observable, which becomes a sequence of pairs. `json.dumps(x)` is kept symbolically as `Dumped(x)`, the value it serialises.

## Model

| member | source | states |
|---|---|---|
| Strings.ParseIntRoundTrip | benchmark/benchmark.py:74 | `int(str(i)) == i`: an integer printed in decimal reads back as itself |
| Strings.JoinSplit | benchmark/benchmark.py:71 | joining the pieces of `s.split(sep)` with `sep` rebuilds `s` |
| Strings.SplitJoin | benchmark/benchmark.py:71 | splitting text joined at a separator no part contains gives the parts back |
| Strings.SplitCount | benchmark/benchmark.py:113 | `s.split(c)` has one more piece than `s` has occurrences of `c` |
| Strings.Strip | benchmark/benchmark.py:74 | `str.strip()` leaves the slice of the text that starts after its leading whitespace; everything before and after the slice is whitespace in the sense of `str.isspace()`, and the slice neither starts nor ends with whitespace |
| Strings.Ellipsized | src/indexer.py:229 | the preview of text longer than n is its first n characters followed by "...", and shorter text is kept whole (the same idiom at search_cli.py:37) |
| Strings.Lower | src/indexer.py:110 | `str.lower()` on ASCII letters: each capital becomes its own small letter, every other character stays in place, and no capital is left |
| Strings.LowerIdempotent | src/indexer.py:110 | lower-casing twice is lower-casing once |
| Indexer.FileName | src/indexer.py:93 | `Path(p).name` is the text after the last `/`: a suffix of the path that holds no `/`, preceded by a `/` when the path has one, and the whole path when it has none |
| Indexer.AcceptedIsProductionGo | src/indexer.py:85-119 | an accepted path has a `.go` name longer than the suffix, no `_test.go` in the name, no vendor pattern in the path and no generated pattern in the lower-cased path |
| Indexer.TestRuleFirst | src/indexer.py:95-98 | a name containing `_test.go` is skipped as a test whatever directory it is in, since that rule is checked first |
| Indexer.GeneratedByPathAlone | src/indexer.py:107-112 | the generated-file test holds exactly when a generated pattern occurs in the lower-cased path; the name half adds nothing |
| Indexer.BumpExactlyOne | src/indexer.py:95-119 | a rejection raises the total of the skip counters by one, and only the rule's own counter moves; acceptance moves none; the file, indexed and function counters are untouched |
| Indexer.ProductionAccepted | src/indexer.py:71 | the production list is no longer than the input, holds only accepted input files, and keeps every accepted input file |
| Indexer.FilterPassSkipsOnly | src/indexer.py:71 | the skip counters after filtering a file list depend only on the skip counters before it |
| Indexer.FilterPassAccounts | src/indexer.py:68-72 | every file judged is either in the production list or counted under exactly one skip counter; the other counters are untouched |
| Indexer.EmbeddedTextLayout | src/indexer.py:150-161 | the embedded text is the docstring and a newline (when the docstring is non-empty), the signature, a newline, then the body cut to 500 characters |
| Indexer.EmbeddedBodyPreview | src/indexer.py:157-161 | the content ends with a newline and the body preview; the preview is the prefix of the body of length min(500, \|body\|) |
| Indexer.AsDictKeys | src/indexer.py:166-178 | the metadata dictionary has exactly the ten keys and no null value |
| Indexer.AsDictFields | src/indexer.py:167-178 | each metadata key holds its field: repo, file, lines_of_code, has_docstring, is_method, receiver, code_type |
| Indexer.MetadataFacts | src/indexer.py:166-178 | lines_of_code is end_line - start_line + 1; has_docstring iff a docstring exists; is_method iff a receiver exists; receiver is "" exactly when the receiver is missing or empty, else the receiver; code_type is the classifier's answer on the relative path |
| Indexer.IdRecoversName | src/indexer.py:146 | the id starts with the repository name and `/`, and for a name without `:` the id's last `:` is followed by exactly the function name |
| Indexer.IdsCollide | src/indexer.py:146 | two same-named functions of one file get the same id (the id is not unique) |
| Indexer.CodeTypeInRange | src/indexer.py:186-205 | the classifier always answers one of the eight categories |
| Indexer.DetectMatchesTable | src/indexer.py:186-205 | the if/elif chain equals the first matching row of the priority table handler, middleware, service, repository, model, client, utility on the lower-cased path |
| Indexer.OtherMeansNoKeyword | src/indexer.py:190-205 | the answer is `other` exactly when no keyword of any row occurs in the text |
| Indexer.CodeTypeCaseInsensitive | src/indexer.py:188 | two paths equal after lower-casing get the same category |
| Indexer.HandlerWins | src/indexer.py:190-191 | a path mentioning `handler` in any case is a handler whatever else it mentions |
| Indexer.PreviewEntry | src/indexer.py:226-233 | a preview entry has exactly the keys id, content_preview and metadata; the preview is the content when at most 150 characters, else its first 150 characters followed by `...` |
| Indexer.Records | src/indexer.py:132-140 | one record per extracted function, in extraction order, each built by the record builder |
| Indexer.Crawled | src/indexer.py:51 | only directories whose names do not start with `.` are crawled |
| Indexer.CrawledFacts | src/indexer.py:49-51 | every directory whose name does not start with `.` is crawled, as often as it is listed, and nothing else is; crawling a listing in two parts crawls the first part, then the second, so listing order is kept |
| Indexer.CodeIndexer.constructor | src/indexer.py:27-38 | all seven counters start at zero, and the accounting invariant holds |
| Indexer.CodeIndexer.ShouldIndexFile | src/indexer.py:85-119 | returns true iff the rule chain accepts the path, and the new counters are the old ones with the rejecting rule's counter bumped |
| Indexer.CodeIndexer.IndexFile | src/indexer.py:121-140 | an undecodable or unreadable file gives no records; any other read error is raised; otherwise the records of the parsed functions |
| Indexer.CodeIndexer.FilterProduction | src/indexer.py:71 | returns the production list, and the counters are those of the filter pass over the files |
| Indexer.CodeIndexer.IndexRepo | src/indexer.py:62-83 | total_files grows by the files found, indexed_files by the production files, and total_functions by the records returned; a file whose indexing raises is skipped; the accounting invariant is kept |
| Indexer.CodeIndexer.IndexProduction | src/indexer.py:75-81 | the loop over the production files returns their records in order, skips a file whose indexing raises, and adds the records returned to total_functions and nothing else |
| Indexer.CodeIndexer.IndexAllRepos | src/indexer.py:40-60 | the records of every crawled repository, concatenated in order; total_files grows by all files found, indexed_files by the production files of every crawled repository, and the skip counters are those of the filter pass over all their files in order; the accounting invariant is kept |
| GoParser.Traverse | src/parser.py:138-142 | the traversal visits every node of the tree once (its length is the tree's size) and starts with the node itself, paired with its preceding siblings |
| GoParser.DescendantVisited | src/parser.py:138-142 | every node reached from the root by any path of child positions, however deep, is visited, paired with exactly the siblings before it |
| GoParser.ChildVisited | src/parser.py:138-142 | every child is visited, paired with exactly the siblings that precede it (its chain of `prev_sibling`) |
| GoParser.FirstOfKind | src/parser.py:107-110 | the position found holds a child of the kind and no earlier child has it; nothing is found exactly when no child has the kind |
| GoParser.FunctionNameFacts | src/parser.py:105-110 | a name exists exactly when some child is an `identifier`, and it is the text of the first such child |
| GoParser.ReceiverFacts | src/parser.py:112-121 | a receiver exists exactly for a `method_declaration` with a `parameter_list` child, and it is the text of the first such child |
| GoParser.SignatureOneLine | src/parser.py:76-80 | the signature holds no newline and only characters of the content; when a newline follows the node start, the signature is the stripped text up to the first one |
| GoParser.SignatureFacts | src/parser.py:77-79 | the signature ends at the first newline at or after the node start, and the text before that end holds no newline |
| GoParser.BodyFromBrace | src/parser.py:82-87 | without a `{` after the node start the body is the full code; with a first `{` inside the node, the body starts with that brace and the full code is the text before the brace followed by the body |
| GoParser.BodyFacts | src/parser.py:83-85 | the first `{` inside the node is the one `find` reports, and the full code splits at it |
| GoParser.RunStart | src/parser.py:127-132 | the walk back over `prev_sibling` stops at the first non-comment: every sibling from the stop to the node is a comment and the one before the stop is not |
| GoParser.CommentRun | src/parser.py:123-136 | the comment run is the longest suffix of the preceding siblings made only of comments |
| GoParser.GetDocstring | src/parser.py:123-136 | returns None when no comment sibling immediately precedes the node, else the run's texts joined by newlines in source order |
| GoParser.ExtractFunctionFacts | src/parser.py:59-99 | a function is produced exactly when the node has a non-empty name; its full code is the node's text, its lines are the node's rows plus one, and its signature, body, docstring and receiver are those defined above; a `function_declaration` never has a receiver |
| GoParser.ParseFile | src/parser.py:34-57 | returns the functions extracted from the declaration nodes of the pre-order traversal, in order |
| GoParser.CollectAppend | src/parser.py:51-55 | extraction over two runs of visits is the extraction of the first followed by that of the second, so order is kept |
| GoParser.CollectSound | src/parser.py:51-55 | every extracted function comes from a visited `function_declaration` or `method_declaration` node that has a name |
| GoParser.CollectSingle | src/parser.py:52-55 | a named declaration contributes exactly its own function, and any other node contributes nothing |
| GoParser.CollectNoDeclarations | src/parser.py:50-57 | a tree without function or method declarations yields no functions |
| Embeddings.OffsetIsProduct | src/embeddings.py:45 | the k-th batch offset of `range(0, len(texts), batch_size)` is k * batch_size |
| Embeddings.BatchCount | src/embeddings.py:45-46 | there are ceil(n / batch_size) batches, hence ceil(n / batch_size) provider calls, and none for an empty input |
| Embeddings.BatchesAt | src/embeddings.py:45-46 | batch k is the slice `texts[k*batch_size : (k+1)*batch_size]` cut at the end of the list, and starts inside the list |
| Embeddings.AnsweredFirst | src/embeddings.py:45-56 | when the provider answers every batch in kind, it answers the first one in kind |
| Embeddings.AnsweredRest | src/embeddings.py:45-56 | when the provider answers every batch in kind, it answers every batch of the texts after the first batch in kind |
| Embeddings.EmbeddedLength | src/embeddings.py:55-61 | when every call returns one vector per text or raises, the output has exactly one entry per text |
| Embeddings.EmbeddedBatch | src/embeddings.py:45-61 | when every batch is answered with one vector per text or fails, batch k's result occupies exactly positions k*batch_size .. (k+1)*batch_size of the output (the last batch up to the end) |
| Embeddings.EmbeddedHead | src/embeddings.py:45-61 | the first batch's result, of one entry per text, leads the output, followed by the output for the remaining texts |
| Embeddings.FailedBatchIsNone | src/embeddings.py:58-61 | every output position of a batch whose call raised is None |
| Embeddings.EmbeddedPointwise | src/embeddings.py:55-56 | when each batch is embedded text by text, output entry j is the embedding of `texts[j]` |
| Embeddings.EmbeddingDimension | src/embeddings.py:67-76 | 3072 exactly when the model name contains "large" but not "small"; 1536 otherwise ("small" is checked first) |
| Embeddings.KnownDimensions | src/embeddings.py:69-70 | text-embedding-3-small has 1536 dimensions and text-embedding-3-large has 3072 |
| Embeddings.ResolveApiKey | src/embeddings.py:22-24 | the given key when it is non-empty, else the environment's; it fails with the documented message exactly when both are missing or empty, and never yields an empty key |
| Embeddings.EmbedBatches | src/embeddings.py:40-61 | sends the batches in order, and the output is the batch results concatenated: vectors, or one None per text of a failed batch |
| Embeddings.EmbeddingGenerator.constructor | src/embeddings.py:14-27 | keeps the resolved key and the model name |
| Embeddings.EmbeddingGenerator.GenerateEmbeddings | src/embeddings.py:29-65 | a zero batch size raises as `range` does; a negative one gives an empty list and no call; otherwise one call per batch, in order, and the concatenated batch results |
| VectorStore.IncrementLookup | src/vector_store.py:151-152 | `d[key] = d.get(key, 0) + 1` adds one to that key's count and leaves every other count alone |
| VectorStore.IncrementTotal | src/vector_store.py:151-152 | one increment adds one to the sum of the counts |
| VectorStore.IncrementKeys | src/vector_store.py:151-152 | a known key keeps its place in the dictionary, a new key is appended, and counts stay positive |
| VectorStore.IncrementUnique | src/vector_store.py:151-152 | an increment keeps each key at most once in the dictionary |
| VectorStore.TallyOfFacts | src/vector_store.py:144-152 | the counting loop's dictionary has each key once, its keys are exactly the counted values with repeats removed, each at its first occurrence (`FirstSeen`), counts every occurrence of each key, has only positive counts, and its counts sum to the number of entries |
| VectorStore.TallyOfShape | src/vector_store.py:144-152 | the dictionary's keys are each listed once, exactly the counted ones, all with a positive count |
| VectorStore.TallyOfCounts | src/vector_store.py:144-152 | each key's count is its number of occurrences, and the counts sum to the number of entries |
| VectorStore.KeptFacts | src/vector_store.py:64 | the kept positions are exactly those whose embedding is not None, each once and in increasing order |
| VectorStore.SurvivorsPaired | src/vector_store.py:64 | the surviving pairs are those at the kept positions, in their original order, each function still with its own embedding |
| VectorStore.SurvivorsExtremes | src/vector_store.py:64-68 | with every embedding None nothing survives; with none None every pair survives, in order |
| VectorStore.AddedFacts | src/vector_store.py:70-92 | one added entry per survivor, carrying that function's id, content, metadata dictionary and embedding, the four lists kept parallel |
| VectorStore.Where | src/vector_store.py:119 | a filter is passed to the query only when it is given and non-empty, and then unchanged |
| VectorStore.ShapedFacts | src/vector_store.py:122-133 | no ids give no records; otherwise one record per returned id, record i taking id, document, metadata and distance (None without distances) at index i |
| VectorStore.SearchNeedsEmbedding | src/vector_store.py:109-120 | a failed query embedding raises "Failed to generate query embedding" before the collection is queried; otherwise the query uses that vector, the limit and the filter |
| VectorStore.StatsFacts | src/vector_store.py:135-160 | total_functions is the count; the repo and type counts each have unique keys, count each label's occurrences with `'unknown'` for a missing key, and sum to the count; an empty collection gives zero and two empty maps |
| VectorStore.MissingRepoIsUnknown | src/vector_store.py:148 | an entry without a `repo` key is counted under `'unknown'` |
| VectorStore.Collection.constructor | src/vector_store.py:43-46 | the collection holds what was persisted under its name |
| VectorStore.Collection.Add | src/vector_store.py:87-92 | `add` with parallel lists appends one entry per position and keeps the name |
| VectorStore.Store.constructor | src/vector_store.py:19-46 | the store's collection has the given name and its persisted entries, and queries are embedded with the given generator |
| VectorStore.Store.AddFunctions | src/vector_store.py:52-95 | a length mismatch raises the mismatch message and adds nothing; otherwise the surviving pairs are appended (nothing when none survive) |
| VectorStore.Store.Search | src/vector_store.py:97-133 | the outcome is the query embedding's check followed by the shaped nearest-neighbour answer on the current entries |
| VectorStore.Store.GetStats | src/vector_store.py:135-160 | the stats of the current entries: count, repo counts and type counts |
| VectorStore.Store.Reset | src/vector_store.py:162-170 | the collection is replaced by a new empty one with the same name |
| McpServer.EnvelopeShapes | src/mcp_server.py:259-276 | a success reply is exactly `jsonrpc` "2.0", the id and the result; an error reply is exactly `jsonrpc`, the id and an error holding exactly code and message (section 5 of the JSON-RPC 2.0 specification) |
| McpServer.ToolsListed | src/mcp_server.py:84-121 | the advertised tools are `search_code` then `get_stats` |
| McpServer.ResourcesListed | src/mcp_server.py:196-218 | the listed resources are the stats resource followed by exactly one `codebase://<repo>` per repository in the stats, in the stats' order |
| McpServer.RepoOfUri | src/mcp_server.py:238 | removing the prefix from `codebase://<repo>` gives `<repo>` back when the name does not itself contain the prefix |
| McpServer.ResourcesReadCases | src/mcp_server.py:220-257 | `codebase://stats` is always served; `codebase://<repo>` is served exactly when the repo appears in the stats, and otherwise raises "Resource not found: <uri>" |
| McpServer.ForeignUriNotFound | src/mcp_server.py:236-257 | a string URI outside the `codebase://` scheme raises "Resource not found: <uri>" |
| McpServer.FormatHitFails | src/mcp_server.py:152-168 | formatting a result raises exactly when one of the looked-up metadata keys is missing, and otherwise gives the result dictionary |
| McpServer.HitFieldsFacts | src/mcp_server.py:154-167 | a formatted result echoes the id, previews the first 500 characters of the content, defaults a missing receiver to "", and has a null relevance score when there is no distance |
| McpServer.MapAllStops | src/mcp_server.py:151-168 | the first result whose formatting raises decides the outcome of the whole formatting loop |
| McpServer.MapAllFacts | src/mcp_server.py:151-168 | when no result raises, one formatted result per result, in order |
| McpServer.FormatResults | src/mcp_server.py:151-168 | the loop formats each result in turn and stops at the first that raises |
| McpServer.SearchCodeArguments | src/mcp_server.py:135-148 | a missing or falsy query raises "query parameter is required"; the limit defaults to 5; the filter is `{"code_type": code_type}` exactly when a truthy code type is given |
| McpServer.SearchCodeCounts | src/mcp_server.py:148-181 | a search whose results all format gives the payload of the query and the formatted results, with results_count equal to the number of results the store returned |
| McpServer.ToolDispatch | src/mcp_server.py:123-133 | only `search_code` and `get_stats` are tools; any other name raises "Unknown tool: <name>"; `get_stats` answers with the store statistics |
| McpServer.Route | src/mcp_server.py:50-62 | a handler is chosen exactly when the method is one of the five names |
| McpServer.RespondFacts | src/mcp_server.py:42-68 | every reply is a well-formed envelope echoing the request id; an unknown method gets -32601 "Method not found: <method>"; a handler's result is wrapped in a success reply, and its exception becomes -32603 with the exception text (section 5.1 of the JSON-RPC 2.0 specification) |
| McpServer.LineDecisionSkips | src/mcp_server.py:283-295 | a line blank after stripping prints nothing, and only such a line; an undecodable line prints the -32700 "Parse error" reply with a null id |
| McpServer.LineDecisionEnvelope | src/mcp_server.py:283-295 | every printed reply is an envelope carrying the request's id, or a null id when the line did not decode |
| McpServer.Server.constructor | src/mcp_server.py:25-36 | the server keeps its store and the abstract embedding and nearest-neighbour services |
| McpServer.Server.ToolSearchCode | src/mcp_server.py:135-181 | the outcome of `tool_search_code` on the store's search: the checked arguments, the search and the formatting loop |
| McpServer.Server.HandleToolsCall | src/mcp_server.py:123-133 | the outcome of the tool dispatch on the store's search and statistics |
| McpServer.Server.HandleResourcesList | src/mcp_server.py:196-218 | the resource list, built by appending one repository resource per loop step after the stats resource |
| McpServer.Server.RunHandler | src/mcp_server.py:50-60 | the selected handler's result, or the text of the exception it raised |
| McpServer.Server.HandleRequest | src/mcp_server.py:42-68 | the reply to the request on the store's current search and statistics |
| SearchCli.PreviewFacts | search_cli.py:37 | content of at most 300 characters is shown whole; longer content shows its first 300 characters followed by "..." |
| SearchCli.BlockRaises | search_cli.py:15-39 | formatting a result raises exactly when a metadata key it reads with `[]` is missing, the receiver counting only when `is_method` is truthy |
| SearchCli.BlockParts | search_cli.py:17-39 | a formatted block is its six opening lines, then the optional lines, then its six closing lines |
| SearchCli.BlockShape | search_cli.py:17-39 | a block opens with a rule line, `[index] id` and a rule line, and closes with the preview and a rule line |
| SearchCli.BlockOptionalLines | search_cli.py:26-30 | the Method line is present exactly when `is_method` is truthy, and the documentation line exactly when `has_docstring` is truthy, in that order |
| SearchCli.FormatResult | search_cli.py:13-41 | returns the block's lines joined by newlines, built with the two conditional appends and the final extend |
| SearchCli.FirstIndex | search_cli.py:60-66 | `argv.index(flag)` is the first position holding the flag, and there is none exactly when the flag is absent |
| SearchCli.IndexOf | search_cli.py:61 | the front-to-back search finds the first position of the flag |
| SearchCli.ArgumentsDefaults | search_cli.py:47-58 | fewer than two words print the usage and return 1; without flags the limit is 5 and there is no type filter |
| SearchCli.LimitRead | search_cli.py:60-62 | the integer after the first `--limit` becomes the limit |
| SearchCli.TypeRead | search_cli.py:64-66 | the word after the first `--type` becomes the type filter |
| SearchCli.LimitMissing | search_cli.py:60-62 | a `--limit` with nothing after it raises IndexError |
| SearchCli.ParseArguments | search_cli.py:55-66 | the flag scan of `main`: the limit starts at 5 and the filter at None, and each present flag replaces its default |
| SearchCli.CliEmptyDatabase | search_cli.py:72-76 | an empty database prints the empty-database line and returns 1 before any search |
| SearchCli.CliSearchHeader | search_cli.py:78-94 | after a successful search the header comes first; no results print "No results found." and return 0; otherwise the next line is "Found N results" with N the number of results |
| SearchCli.BlocksComplete | search_cli.py:96-98 | when every block formats, one block per result, numbered from 1, in order |
| SearchCli.BlocksStop | search_cli.py:96-98 | once a block raises, the display loop ends with that exception and no later block is shown |
| SearchCli.PrintBlocks | search_cli.py:96-98 | the display loop prints each formatted block in turn until one raises |
| SearchCli.RunCli | search_cli.py:44-103 | `main` on a store: it scans the flags, checks that the store is not empty, searches, prints each block, and after the tip prints the code types or raises the TypeError of the first key that is not a string |
| SearchCli.NotAnInteger | search_cli.py:62 | the ValueError text of `int(s)` starts with "invalid literal for int() with base 10: " and goes on with `repr(s)` when that is at most 200 characters long, never going past 200 characters |
| SearchCli.NotAnIntegerSingleQuoted | search_cli.py:62 | `--limit ten` reports `'ten'`, in single quotes |
| SearchCli.NotAnIntegerDoubleQuoted | search_cli.py:62 | `--limit "a'b"` reports `"a'b"`, in double quotes, since the text holds a single quote and no double quote |
| SearchCli.FirstNonText | search_cli.py:101 | the position found holds a value that is not a string and every earlier one is a string; nothing is found exactly when all values are strings |
| SearchCli.TypesLine | search_cli.py:101 | `', '.join(stats['types'].keys())` succeeds exactly when every key is a string, and is then the keys in order, separated by ", "; otherwise it raises "sequence item i: expected str instance, T found" for the first key i that is not a string, of type T |
| Strings.ReprRoundTrip | search_cli.py:62 | reading back the escapes between the quotes of `repr(s)` gives `s` |
| Strings.ReprPlain | search_cli.py:62 | text without quote, backslash or control character is written as it is, in single quotes |
| Strings.ReprDoubleQuoted | search_cli.py:62 | text with a single quote and no double quote, backslash or control character is written as it is, in double quotes |
| Evaluation.PrefixOf | evaluation-framework.py:111 | Python's `retrieved[:k]` is a prefix of the list, of length min(k, n) for k >= 0; a negative k drops that many items from the end |
| Evaluation.HitsBounds | evaluation-framework.py:111-114 | the hits are at most the number of distinct relevant files and at most the length of the retrieved prefix |
| Evaluation.MetricBounds | evaluation-framework.py:108-131 | recall lies in [0, 1] for every k, and precision lies in [0, 1] for every k >= 0 |
| Evaluation.FullRecall | evaluation-framework.py:108-117 | when every relevant file is among the first k retrieved, recall is 1 |
| Evaluation.DuplicateIgnored | evaluation-framework.py:111-114 | inserting a repeat of an already retrieved file, and looking one further, leaves the hits unchanged, because sets are used |
| Evaluation.FirstRelevant | evaluation-framework.py:143-144 | the position found is relevant and every earlier one is not; there is none exactly when no retrieved file is relevant |
| Evaluation.ReciprocalRankFacts | evaluation-framework.py:136-147 | the reciprocal rank is 1/r for the 1-based position r of the first relevant file, 1 exactly when the first answer is relevant, 0 exactly when no answer is, and always in [0, 1] |
| Evaluation.MaxOf | evaluation-framework.py:408 | `max(k_values)` is one of the cut-offs and no smaller than any of them |
| Evaluation.GroupFind | evaluation-framework.py:420-427 | the per-category lists hold, under each category, exactly that category's scores in append order |
| Evaluation.CollectFind | evaluation-framework.py:404-427 | the nested dictionary holds, under each metric name, exactly that metric's scores grouped by category, and a metric appears only when it has a score |
| Evaluation.GroupTotals | evaluation-framework.py:420-427 | grouping keeps every score once: the groups' sums and counts are those of all the scores |
| Evaluation.AggregationFacts | evaluation-framework.py:429-441 | each metric's `overall` is the sum of all its scores across categories divided by their number; each category's entry is that category's mean; a metric or category appears exactly when it received a score |
| Evaluation.RecordAllCollect | evaluation-framework.py:404-427 | appending scores to the dictionary in order gives the dictionary of all the scores |
| Evaluation.RecordCutoffStep | evaluation-framework.py:412-421 | one pass of the cut-off loop appends the recall and then the precision at that cut-off |
| Evaluation.RecordCutoffs | evaluation-framework.py:412-421 | the cut-off loop appends the recall and precision of every cut-off, in order |
| Evaluation.QueryStep | evaluation-framework.py:406-427 | one pass of the query loop appends the cut-off scores and then the reciprocal rank of that query |
| Evaluation.EvaluateRetrieval | evaluation-framework.py:393-441 | appends every query's scores and aggregates them; an empty cut-off list raises from `max` once a query is evaluated |
| Evaluation.DefaultCutoffs | evaluation-framework.py:393 | with the default cut-offs 1, 3, 5 and 10 the evaluation never raises, and the retrieval depth is 10 |
| Evaluation.RecallNameInjective | evaluation-framework.py:420 | different cut-offs have different `recall@k` names |
| Evaluation.CutoffNoMrr | evaluation-framework.py:412-421 | the cut-off scores of a query include no reciprocal rank |
| Evaluation.CutoffRecall | evaluation-framework.py:412-421 | a query's recall@k score is appended once for every time k is listed among the cut-offs |
| Evaluation.QueryMrr | evaluation-framework.py:423-427 | one query contributes exactly its own reciprocal rank to `mrr` |
| Evaluation.QueryRecall | evaluation-framework.py:412-420 | one query contributes exactly its own recall to a cut-off listed once |
| Evaluation.MrrPairs | evaluation-framework.py:406-427 | the `mrr` scores are each query's category and reciprocal rank, in query order |
| Evaluation.RecallPairs | evaluation-framework.py:406-420 | the `recall@k` scores of a cut-off listed once are each query's category and recall at k, in query order |
| Evaluation.MeanReciprocalRank | evaluation-framework.py:406-441 | the reported `mrr` overall is the mean of the queries' reciprocal ranks, and each category's entry is the mean over that category's queries |
| Evaluation.MeanRecall | evaluation-framework.py:406-441 | for a cut-off listed once, the reported `recall@k` overall is the mean of the queries' recall at k, and each category's entry is the mean over that category's queries |
| Evaluation.TargetVerdictFacts | evaluation-framework.py:459-462 | the report says MET exactly when recall@5 is present and its overall is at least 0.80 (a missing metric counts as 0), and MISSED otherwise |
| Evaluation.ScoringPreview | evaluation-framework.py:226 | the preview is the first 100 characters with every newline replaced by a space |
| Evaluation.BatchScoringTemplate | evaluation-framework.py:215-229 | the template is its lines joined by newlines |
| Evaluation.TemplateAsLines | evaluation-framework.py:221-229 | the query line's own newline reads as an empty line, followed by the header, the rule of 80 dashes and the rows |
| Evaluation.TemplateLineByLine | evaluation-framework.py:221-229 | read back line by line, the template is the query line, an empty line, the header, the rule and exactly one row per result, in order |
| Benchmark.CountStep | benchmark/benchmark.py:71-76 | scanning one more line replaces the count exactly when the line mentions both words and its number parses |
| Benchmark.ParseResultsCount | benchmark/benchmark.py:68-76 | the parsing loop of `run_mcp_search`, starting from 0, yields the count the line-by-line definition gives |
| Benchmark.GuardRedundant | benchmark/benchmark.py:70-72 | the outer `"Found" in stdout` test changes nothing: without it no line mentions "Found" either |
| Benchmark.NoMentionsCountZero | benchmark/benchmark.py:69-76 | output without any line mentioning both words reads as 0 results |
| Benchmark.NoValueZero | benchmark/benchmark.py:69-76 | output in which no line parses reads as 0 results |
| Benchmark.LastMentionWins | benchmark/benchmark.py:71-76 | the last line that mentions both words and parses decides the count; later lines that do not parse leave it alone |
| Benchmark.LastValueWins | benchmark/benchmark.py:71-76 | the last parsable line decides the count whatever came before it |
| Benchmark.FoundTextLine | search_cli.py:94 | the search command's summary is one line followed by a newline |
| Benchmark.FoundLineSplit | benchmark/benchmark.py:74 | splitting the summary line at "Found" gives the emoji and the text after the word |
| Benchmark.ResultsSplit | benchmark/benchmark.py:74 | splitting the text after "Found" at "results" leaves the space-padded number first |
| Benchmark.FoundLineMentions | benchmark/benchmark.py:72 | the summary line mentions both "Found" and "results" |
| Benchmark.FoundLineParses | benchmark/benchmark.py:72-74 | the summary line "Found N results:" printed by the search command reads back as N |
| Benchmark.FoundLineSingle | search_cli.py:94 | the summary line holds no newline |
| Benchmark.SearchOutputCounts | benchmark/benchmark.py:68-76 | output whose last parsable line is the search command's summary for N results reads back as N |
| Benchmark.McpResult | benchmark/benchmark.py:78-92 | the MCP result has method "mcp", one API call, one manual step, no file opened, total time equal to search time, and the count read back from the output |
| Benchmark.McpRecordsReportedCount | benchmark/benchmark.py:51-92 | benchmarking a search that reported N results records N |
| Benchmark.ManualCountAsWrittenNewlines | benchmark/benchmark.py:113 | as written, the count of non-empty output is one more than its number of newlines |
| Benchmark.ManualCountAsWrittenOvercounts | benchmark/benchmark.py:113 | as written, grep's single matching line "a.go:3:x\n" counts as two results |
| Benchmark.ManualCountAsWrittenOffByOne | benchmark/benchmark.py:113 | on grep's newline-terminated output the count as written is one more than the number of lines, and the corrected count gives the number of lines |
| Benchmark.ManualCountLines | benchmark/benchmark.py:113 | the corrected count of output made of n newline-terminated lines is n |
| Benchmark.ManualResultOf | benchmark/benchmark.py:116-132 | the manual result for a count n has method "manual", no API call, no cost, n results, 3 + n manual steps, n files opened, and the search time plus 10 seconds per file |
| Benchmark.ManualResult | benchmark/benchmark.py:113-132 | as written: empty output gives 0 results, other output one more than its number of newlines; 3 + count manual steps, count files opened, and the search time plus 10 seconds per file |
| Benchmark.ManualResultCorrected | benchmark/benchmark.py:113-132 | corrected: the count is the number of output lines; the steps, files and total time follow from it as in the source |
| Benchmark.ManualResultOvercounts | benchmark/benchmark.py:113-132 | on grep's output of n > 0 lines, the result as written records n + 1 results, one step too many and 10 seconds too much; the corrected result records n |
| Benchmark.MinOf | benchmark/benchmark.py:162 | `min(values)` is one of the values and no larger than any |
| Benchmark.MaxOf | benchmark/benchmark.py:163 | `max(values)` is one of the values and no smaller than any |
| Benchmark.InsertAscending | benchmark/benchmark.py:161 | inserting into an ascending list keeps it ascending (the sort behind the median) |
| Benchmark.InsertPermutes | benchmark/benchmark.py:161 | inserting adds exactly the one value |
| Benchmark.SortedCopyFacts | benchmark/benchmark.py:161 | the sorted copy behind the median is ascending and a permutation of the values |
| Benchmark.SortedWithin | benchmark/benchmark.py:161-163 | the sorted copy has one entry per value, each between the minimum and the maximum |
| Benchmark.MedianBetween | benchmark/benchmark.py:161-163 | the median lies between min and max |
| Benchmark.MeanBetween | benchmark/benchmark.py:160-163 | the mean lies between min and max |
| Benchmark.ComputeStatsFacts | benchmark/benchmark.py:155-165 | no values give the all-zero statistics, and only then; otherwise min <= median <= max and min <= mean <= max; the variance is never negative and is 0 for fewer than two values |
| Benchmark.WithMethodFacts | benchmark/benchmark.py:152-153 | a partition raises KeyError('method') exactly when some file lacks the entry; otherwise it holds each file of that method as often as the input does and no other file, and the partition of a concatenation is the concatenation of the partitions, so input order is kept |
| Benchmark.SavedEntries | benchmark/benchmark.py:136-139 | the object saved for a result holds its method, its cost estimate and each of the five metrics, as numbers, under the keys the aggregation reads |
| Benchmark.ValuesAllPresent | benchmark/benchmark.py:156 | when every file has the metric, the values are one per file, in order, the file's own entry |
| Benchmark.ValuesSkipMissing | benchmark/benchmark.py:156 | a file without the metric contributes no value, wherever it stands |
| Benchmark.Numbers | benchmark/benchmark.py:159-163 | the values are read as numbers exactly when every one is an int, a float or a bool, and each number is the value's own |
| Benchmark.PartitionCount | benchmark/benchmark.py:152-153 | the two partitions together hold at most all the files, and exactly all when every method is "mcp" or "manual" |
| Benchmark.AggregateFacts | benchmark/benchmark.py:141-208 | no files give the error summary, and only then; a file without `method` raises KeyError('method'); a summary has total_tests equal to the number of files, partitions holding at most that, and the improvements exactly when both partitions are non-empty |
| Benchmark.SummaryLacksMethod | benchmark/benchmark.py:168-206 | a summary, and the error summary, has no `method` key |
| Benchmark.SummaryFileBreaksAggregate | benchmark/benchmark.py:144 | as written: once a summary saved by an earlier run is among the `*.json` files, aggregating raises KeyError('method') wherever it stands |
| Benchmark.SummaryFileIgnored | benchmark/benchmark.py:144 | corrected: aggregating only the saved results, an earlier summary among the files changes nothing |
| Benchmark.StatsSaved | benchmark/benchmark.py:155-165 | a metric read back from the saved files has the statistics of the results' own values of it |
| Benchmark.CostSaved | benchmark/benchmark.py:175 | the total cost read back from the saved files is the sum of the results' cost estimates |
| Benchmark.MetricsSaved | benchmark/benchmark.py:169-186 | the metrics block of saved results is the statistics of each of their five metrics, with the given cost |
| Benchmark.AggregateSaved | benchmark/benchmark.py:141-208 | aggregating the files `save_result` wrote succeeds; it is the error summary exactly when there are none; otherwise it counts every result, the results of each method, gives the summed cost estimate of the MCP results and a manual cost of 0; the corrected aggregation gives the same |
| Benchmark.ImprovementsGuarded | benchmark/benchmark.py:197-206 | the percentage is 0 when the manual mean time is not positive, the speedup is 0 when the MCP mean time is not positive, and otherwise the speedup times the MCP mean is the manual mean |
| LlamaStarter.Config.constructor | llamaindex-starter.py:47-81 | every field takes its argument or its default, and the two lists are then settled by `__post_init__` |
| LlamaStarter.Config.PostInit | llamaindex-starter.py:71-81 | a list left as `None` gets its default (five extensions, five exclusion patterns), a given list is kept even when empty, and no other field changes |
| LlamaStarter.PackageFromFacts | llamaindex-starter.py:145-151 | the package is the identifier of the first top-level clause that names one; a clause without an identifier is passed over; "unknown" when none names one |
| LlamaStarter.PackageNameFacts | llamaindex-starter.py:143-151 | the same, stated for the root node's children |
| LlamaStarter.ExtractFunctionName | llamaindex-starter.py:153-158 | the name is the text of the first `identifier` child, and "anonymous" when there is none |
| LlamaStarter.ExtractDocstring | llamaindex-starter.py:160-167 | a docstring, when found, starts with "//" |
| LlamaStarter.DocstringAbove | llamaindex-starter.py:164-167 | when the node starts on the line after a line `comment`, the docstring is that line stripped, exactly when the stripped line starts with "//" |
| LlamaStarter.DocstringOnFirstLine | llamaindex-starter.py:164-167 | a node on the first line of the file has no docstring |
| LlamaStarter.ChunksStep | llamaindex-starter.py:113-133 | visiting one more node appends one chunk exactly when the node is a function or method declaration |
| LlamaStarter.ChunksOfDeclarations | llamaindex-starter.py:113-133 | the k-th chunk is the chunk of the k-th declaration visited, and there is one chunk per declaration |
| LlamaStarter.DeclarationsAreDeclarations | llamaindex-starter.py:114 | only function and method declarations are kept |
| LlamaStarter.ChunkOfFacts | llamaindex-starter.py:115-132 | a chunk's content is the node's source text, with the file path, language "go" and the 1-based start and end lines in its metadata |
| LlamaStarter.ChunkOfNames | llamaindex-starter.py:116-129 | the metadata holds the package and the function name, and `has_docstring` is true exactly when a docstring is recorded |
| LlamaStarter.ExtractedFacts | llamaindex-starter.py:99-141 | the chunks of a file are, in order, the chunks of its declaration nodes in pre-order, all carrying the file's package |
| LlamaStarter.ExtractFunctions | llamaindex-starter.py:99-135 | the traversal loop of `extract_functions` builds exactly the chunks of the declarations |
| LlamaStarter.Document.constructor | llamaindex-starter.py:226-229 | a new document holds the given text and metadata |
| LlamaStarter.Snapshot | llamaindex-starter.py:209-240 | one state per document |
| LlamaStarter.ChainAppendAssociative | llamaindex-starter.py:213-240 | chaining the per-document steps is associative: the first error wins wherever it occurs |
| LlamaStarter.ChainUnit | llamaindex-starter.py:213-240 | chaining an empty success changes nothing |
| LlamaStarter.PassThrough | llamaindex-starter.py:216-238 | documents that are not Go files, or whose parse fails, come out unchanged and in order |
| LlamaStarter.KeptExpansion | llamaindex-starter.py:232-238 | such a document expands to itself |
| LlamaStarter.ChunkedConcat | llamaindex-starter.py:213-240 | chunking a concatenation of document lists chains the results of the parts, so the order across documents is kept |
| LlamaStarter.ChunkedSingle | llamaindex-starter.py:213-240 | when the whole list succeeds, each document's expansion sits between those of its neighbours |
| LlamaStarter.ChunkedStep | llamaindex-starter.py:213-238 | one more document appends its expansion, or its error ends the result |
| LlamaStarter.SnapshotIndex | llamaindex-starter.py:209-240 | the i-th state is that of the i-th document |
| LlamaStarter.FailureStays | llamaindex-starter.py:214-216 | once a document raises, the documents after it are never looked at |
| LlamaStarter.SnapshotAppend | llamaindex-starter.py:230-238 | appending a document appends its state |
| LlamaStarter.SnapshotConcat | llamaindex-starter.py:230-238 | the states of a concatenation are the concatenated states |
| LlamaStarter.PrefixFailure | llamaindex-starter.py:214-216 | a list whose first j documents fail fails with the same error |
| LlamaStarter.AppendChunks | llamaindex-starter.py:225-230 | the inner loop appends a new document per chunk, in order, and leaves the existing ones in place |
| LlamaStarter.ExpandInto | llamaindex-starter.py:214-238 | one document: on success the list grows by exactly its expansion (its chunks as new documents, or itself); a non-string path raises the `endswith` error |
| LlamaStarter.ChunkGoFiles | llamaindex-starter.py:209-240 | the output lists the expansions of all documents in order, kept documents being the same objects and chunks new ones; the first non-string path raises its error |
| LlamaStarter.Kept | llamaindex-starter.py:247 | no path component is empty or "." |
| LlamaStarter.EnrichmentFacts | llamaindex-starter.py:242-264 | enrichment fails only on a non-string path; otherwise it adds exactly `content_length`, `language` and, when the path has parts, `repo_name` (its first part); a set language is kept, a missing one comes from the suffix ("unknown" for an unlisted suffix); every other entry is left alone |
| LlamaStarter.EnrichedKeys | llamaindex-starter.py:244-264 | the keys after enrichment are the old ones plus `language`, `content_length` and, when the path has parts, `repo_name` |
| LlamaStarter.EnrichedEntries | llamaindex-starter.py:247-264 | the values of the three entries enrichment writes |
| LlamaStarter.EnrichedOthers | llamaindex-starter.py:242-264 | the entries enrichment does not write keep their values |
| LlamaStarter.EnrichmentIdempotent | llamaindex-starter.py:242-264 | enriching twice is enriching once (so a document listed twice at llamaindex-starter.py:203-204 ends up the same) |
| LlamaStarter.EnrichMetadata | llamaindex-starter.py:242-264 | the document's metadata becomes its enrichment, or stays as it was when the path is not a string and the error is raised |
| LlamaStarter.RelativePathParts | llamaindex-starter.py:247 | a relative path made of named components has those components as its parts, and its last one as its name |
| LlamaStarter.RelativeComponents | llamaindex-starter.py:247 | the components of such a path are the ones it was written from |
| LlamaStarter.RelativeNotRooted | llamaindex-starter.py:247 | such a path has no root part |
| LlamaStarter.SuffixOfName | llamaindex-starter.py:253 | the suffix of `stem.ext` is `.ext` for a non-empty stem and a dot-free extension |
| LlamaStarter.GoNameSuffix | llamaindex-starter.py:253-255 | `stem.go` has the suffix ".go" |
| LlamaStarter.GoFilePath | llamaindex-starter.py:247-253 | the path `dir/.../stem.go` has the first directory as its first part and ".go" as its suffix |
| LlamaStarter.GoFileEnrichment | llamaindex-starter.py:242-264 | a Go file under relative directories, without a language, is tagged "go" and named after its first directory |
| LlamaStarter.FreshEnrichment | llamaindex-starter.py:247-261 | a document without a language at a path with parts gets both entries from the path |
| LlamaStarter.ChunkEnrichment | llamaindex-starter.py:242-264 | enriching a Go chunk succeeds and keeps its file path and its language "go" |

## Left out

- Filesystem walking and reading are inputs, not modelled. This covers `rglob`, `iterdir` and `read_text`. A repository is its list of `.go` files, each with the outcome of reading it.
- Printing to stdout/stderr, JSON file writes, `tqdm` and the stdin read loop itself are not modelled. The search command's output is the list of texts `main` prints, and the server's loop is its decision for one line.
- `subprocess` calls, `grep` and `head -20` in benchmark/benchmark.py are not modelled. Their captured stdout is a parameter.
- Clocks, timestamps, session ids and measured times are parameters.
- Interactive `input()` scoring in evaluation-framework.py is not modelled. Only the scoring template it prints is.
- tree-sitter parsing is an input: the syntax tree is a parameter of the parser and of the LlamaIndex chunker. A parse that raises is `None`.
- OpenAI embedding calls are a provider parameter that answers with vectors or fails per batch. Anthropic and llama_index calls are not modelled: index building, querying and the RAG class lie outside this model.
- `CodebaseLoader.load_documents` is not modelled: it is directory reading through llama_index. Its two helpers are (`ChunkGoFiles`, `EnrichMetadata`).
- Chroma's nearest-neighbour ranking and `where` filtering are a parameter. Neither its behaviour on duplicate ids nor its persistence is modelled.
- `VectorStore.Nearest`: the nearest-neighbour query never raises in this model. Chroma's `collection.query` can raise, for example on `n_results` of 0 (`--limit 0`, or `"limit": 0` in `search_code`). The source then answers -32603 or prints a traceback, where the model returns a shaped result.
- `Benchmark.Loaded`: every `*.json` file is taken to decode to a JSON object. A `JSONDecodeError`, or a file whose top level is not an object, is not modelled.
- The text `json.dumps` produces and its key order are not modelled; a dumped value is kept as `Dumped(x)`.
- `str()` of floats, lists and dictionaries is not modelled. These get a fixed stand-in text, and only `None`, booleans, integers and strings are printed exactly.
- `int()` is modelled as stripping surrounding whitespace, then reading an optional sign and ASCII digits. Digit-group underscores and non-ASCII digits are not accepted.
- `str.lower()` is modelled on ASCII letters only. `str.strip()` removes the whitespace characters `str.isspace()` accepts.
- `repr()` of a string treats every character outside ASCII as printable. Python escapes the non-printable ones as `\x..`, `\u....` or `\U........`.
- `Benchmark.StatsOf`, `Benchmark.CostTotal`: the text of the TypeError that `statistics` and `sum` raise on a metric or cost that is not a number is a stand-in, `NotANumber`.
- The order in which `glob` lists the files is the order of the input sequence. The summary file is described only by its top-level keys (`SummaryKeys`).
- Byte offsets from tree-sitter are used as string indices. The model reads content as one character per byte, which holds for ASCII files.
- `PurePosixPath` is modelled for relative paths and paths with a single leading "/". A path starting with exactly "//", which POSIX keeps as its own root, is not modelled.
- Floating point is read as exact arithmetic on `real`. This covers the metrics, the means and the relevance score `1 - distance`. Rounding is not modelled.
- `ndcg_at_k` (log2 and an import that is missing) is not modelled, nor are the latency percentiles in evaluation-framework.py.
- `Benchmark.ComputeStatsFacts`: `statistics.stdev` is stated through the sample variance it is the square root of. The square root is not modelled.
- benchmark/visualize.py is not modelled (printing and chart scaling).
- index_repos.py is not modelled (fetch, embed and store orchestration). Nor are the integration scripts test_mcp_simple.py, test_mcp_server.py and test_embeddings_format.py. Their expectation of the −32601 message is stated in `McpServer` from the server code.
- The parser's `try/except` in `_extract_function` is not modelled: no operation of the model can raise there.
- Properties the code does not have are not claimed:
  - id uniqueness, since two same-named methods in one file share an id;
  - idempotent re-indexing, since `add` is not an upsert;
  - rejection of vectors of the wrong dimension;
  - retry of a failed embedding batch.

## Findings

| source | as written | input that shows it | evidently intended | confidence | as-written member | corrected member |
|---|---|---|---|---|---|---|
| benchmark/benchmark.py:113 | `len(result.stdout.split('\n'))` also counts the empty piece after grep's final newline, so the count is one more than the number of matching lines | stdout "a.go:3:x\n" (one match) gives 2 results, 5 manual steps and 2 files opened | the number of output lines, which is 1 here | not executed | Benchmark.ManualResult (Benchmark.ManualCountAsWrittenOvercounts, Benchmark.ManualResultOvercounts) | Benchmark.ManualResultCorrected (Benchmark.ManualCountLines, Benchmark.ManualResultOvercounts) |
| benchmark/benchmark.py:144 | `glob("*.json")` also loads the `summary_<session>.json` that `main` writes into the same directory (lines 272-274); it has no `method` entry, so line 152 raises KeyError('method') | a results directory holding the summary of an earlier run, as the second run of `main` finds it | aggregate the saved results only | not executed | Benchmark.Aggregate (Benchmark.SummaryFileBreaksAggregate) | Benchmark.AggregateResults (Benchmark.SummaryFileIgnored, Benchmark.AggregateSaved) |

`Benchmark.ManualResult` and `Benchmark.Aggregate` model the code as written. `Benchmark.ManualResultCorrected` counts the matching lines, so its manual steps, files opened and total time follow from that number. `Benchmark.AggregateResults` passes over files without a `method` entry.
