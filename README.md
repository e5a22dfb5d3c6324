# AIVideo-Retriever core, modelled in Dafny

AIVideo-Retriever is a text-to-video retrieval backend. A query — often
Vietnamese, translated to English first — is embedded by several
vision-language models (CLIP, BEiT-3, BigG, BLIP-2). The embeddings are looked
up in a vector store, and the query is also sent to text indexes: image
captions, speech transcripts and on-screen text. Every method's ranked list
is rescaled, weighted and fused by id into one ranking. Each result then gets
the URL of its keyframe. The multi-stage endpoint runs several such queries,
one per stage. It can align their results in time, either by id or as
tuples of frames from one video in increasing order. The augmented endpoint
asks a generative model for two rewordings of the query and fuses the three
answers. Offline scripts build the data: they select keyframes per scene,
run OCR over keyframes in batches using a pool of rotating API keys, check
those keys' health, and load embeddings and text into the two stores.

This project models that core as Dafny functions, methods and classes, and
proves what the code promises about it:
- the fusions' weights, sums, first-seen metadata, ordering and `top_k` cut;
- the scalers' ranges and order preservation;
- the endpoints' toggles, fallbacks and HTTP errors;
- the temporal alignment's uniqueness and frame ordering;
- the batch arithmetic of the ingest scripts;
- the OCR script's id filters, JSON recovery and key rotation.

Where the source loops or updates state, the model is imperative: a method
with loop invariants, or a class with fields. Each method is proved equal to
a specification function, and the lemmas state their properties about that
function. Every external service is a parameter of the model:
- the embedding servers;
- the vector store and the text indexes;
- the generative model and the translator;
- NumPy's statistics and the clock.

Each such parameter returns either a value or the exception it raised. Python
exceptions that a caller can observe become `Failure` values. Scores are
reals. Search ids are `IntId` (vector store) or `StrId` (text indexes); like
Python dict keys `5` and `"5"`, the two kinds are never merged.

Modules follow the source files. Shared modules: `Wrappers` (Option and
Result), `Text` (Python `str` operations), `Json` (decoded JSON values),
`Lists` (slicing, stable descending sort, string order), `Hits` (a search
hit), `Fusion` (the weighted-sum-by-id accumulator every ensemble uses).

Two source files appear twice in the table under different module names.
`backend/app/services/method/multimodel_search.py` is `MethodMultiModel`, and
`backend/app/services/multimodel_search.py` is `ServicesMultiModel`.

## Model

| member | source | states |
|---|---|---|
| Config.ParseCorsString | backend/app/core/config.py:83-86 | a string setting yields exactly its trimmed, non-empty comma-separated parts, none of which holds a comma or surrounding blanks |
| Config.ParseCorsOthers | backend/app/core/config.py:85-87 | a list setting is kept as it is, any other non-string value gives [], and a string gives only strings |
| Config.ParseCorsJoin | backend/app/core/config.py:83-87 | origins joined with ',' parse back into the same origins when each is non-empty, comma-free and unpadded |
| Config.DefaultCorsFour | backend/app/core/config.py:24 | the default `CORS_ORIGINS` parses into its four origins, in order |
| UrlManager.ParseUrls | backend/app/services/gemini/url_manager.py:19-26 | the constructor's URL list is the comma-split/trimmed string or the list itself, and it fails with `ValueError` exactly when that list is empty |
| UrlManager.ParseUrlsCases | backend/app/services/gemini/url_manager.py:19-26 | a list is refused only when empty, a non-string non-list is always refused, and a string's URLs are non-empty strings |
| UrlManager.NewURLManager | backend/app/services/gemini/url_manager.py:12-29 | construction fails exactly when the parsed list is empty; otherwise the manager holds that list with the cursor at 0 |
| UrlManager.URLManager.constructor | backend/app/services/gemini/url_manager.py:25-28 | a manager over a non-empty list starts at index 0 |
| UrlManager.URLManager.GetNextUrl | backend/app/services/gemini/url_manager.py:31-42 | hands out the URL at the cursor and advances it by one modulo the length, so the k-th call returns `urls[k % n]`; the list is unchanged |
| UrlManager.URLManager.GetAllUrls | backend/app/services/gemini/url_manager.py:44-46 | a copy with the same URLs in the same order |
| UrlManager.URLManager.Length | backend/app/services/gemini/url_manager.py:48-50 | `len(manager)` is the number of URLs |
| UrlManager.HandedOut | backend/app/services/gemini/url_manager.py:39-42 | the URLs handed out by m consecutive calls after c calls are `urls[(c + i) % n]` |
| UrlManager.RoundVisitsAll | backend/app/services/gemini/url_manager.py:39-42 | any n consecutive calls hand out every URL, each from a different position |
| UniqueObjects.ElemObject | backend/app/data/index/es_data/tmp.py:15-17 | a list element contributes its trimmed text exactly when it is a string that is not blank |
| UniqueObjects.ListObjectsMembers | backend/app/data/index/es_data/tmp.py:14-17 | a list contributes exactly the trimmed texts of its non-blank string elements |
| UniqueObjects.AllObjectsMembers | backend/app/data/index/es_data/tmp.py:13-17 | the collected names are those contributed by some value of the file |
| UniqueObjects.ObjectsAreNames | backend/app/data/index/es_data/tmp.py:13-17 | a name is collected exactly when it is an object of some list value; every collected name is non-empty and trimmed |
| UniqueObjects.SortedSet | backend/app/data/index/es_data/tmp.py:19 | `sorted(set)` lists each element of the set once, in strictly increasing order |
| UniqueObjects.LoadUniqueObjects | backend/app/data/index/es_data/tmp.py:3-19 | the result is strictly sorted (so duplicate-free) and holds exactly the file's object names, each non-empty and trimmed |
| KeyHealthCheck.LoadKeys | key_health_check.py:37-44 | a missing file and a file with no key after filtering are the two errors; otherwise the keys are the trimmed non-blank, non-'#' lines in file order |
| Text.ContentLinesMembers | key_health_check.py:40-41 | a key is the trimmed text of a line that is neither blank nor a '#' comment, and every such line gives its key |
| Text.ContentLinesAppend | key_health_check.py:40-41 | the filter works line by line, so order and duplicates are kept |
| Text.ContentLinesOfKeys | key_health_check.py:40-41 | lines that are already trimmed keys come back unchanged |
| KeyHealthCheck.CapKeys | key_health_check.py:92-93 | an absent or zero `--max-keys` keeps every key; a positive cap keeps the first min(cap, n) keys; a negative one drops keys from the end as `keys[:cap]` does |
| KeyHealthCheck.RateLimitCases | key_health_check.py:49-67 | the message tests ignore letter case; an API error with code 429 is a rate limit and a client error with code 401 an auth error whatever the message says; a non-API error is judged by its message alone |
| KeyHealthCheck.PingKey | key_health_check.py:69-83 | success is (True, "ok") and nothing else is; a failure is "unauthorized" exactly for auth errors, else "rate_limited" exactly for rate limits, else "error" |
| KeyHealthCheck.GoodKeysRoundTrip | key_health_check.py:85-87 | the good-keys text is empty exactly when there are no keys; otherwise it ends in a newline and splits back into the keys |
| KeyHealthCheck.Statuses | key_health_check.py:97-100 | one status per key, in key order, holding that key's ping classification |
| KeyHealthCheck.CountOk | key_health_check.py:107 | the usable count is at most the number of statuses |
| KeyHealthCheck.CountReason | key_health_check.py:109 | the count of one reason is at most the number of statuses |
| KeyHealthCheck.GoodKeysCounted | key_health_check.py:97-107 | the good keys are exactly the keys whose ping succeeded, and there are as many of them as ok statuses |
| KeyHealthCheck.Summarize | key_health_check.py:107-109 | usable plus failed is the number of statuses |
| KeyHealthCheck.UnauthorizedNotOk | key_health_check.py:107-109 | when ok and "ok" coincide, the unauthorized keys are among the failed ones |
| KeyHealthCheck.SummaryOfRun | key_health_check.py:97-110 | for a run, the usable count is the number of good keys, usable plus failed is the number of keys, and unauthorized is at most failed |
| KeyHealthCheck.TestKeys | key_health_check.py:94-104 | the loop yields the good keys and the statuses defined above |
| KeyHealthCheck.HealthCheck | key_health_check.py:89-110 | a key-file error passes through; otherwise the good-keys text and the summary are those of the capped key list |
| Keyframes.Candidates | extract_keyframes_beit3.py:149 | the candidates are `s`, `s + 6`, … up to `e`, and the next step would pass `e` |
| Keyframes.FrameOrder | extract_keyframes_beit3.py:152 | the kept candidates are exactly the candidates whose frame decoded |
| Keyframes.CandidatesIncreasing | extract_keyframes_beit3.py:149 | the candidates are strictly increasing |
| Keyframes.FrameOrderIncreasing | extract_keyframes_beit3.py:152 | dropping the frames that did not decode keeps the order |
| Keyframes.Select | extract_keyframes_beit3.py:171-184 | the first candidate is always a keyframe and every keyframe is a position already considered |
| Keyframes.SelectIncreasing | extract_keyframes_beit3.py:171-184 | the keyframe positions are strictly increasing positions of the candidate list |
| Keyframes.SelectDecision | extract_keyframes_beit3.py:173-184 | a later candidate is a keyframe exactly when it is at least 60 frames after the last keyframe before it, or its similarity is below 0.94 to that keyframe and below 0.96 to the previous candidate; the gap rule alone admits it |
| Keyframes.DecidedWhenReached | extract_keyframes_beit3.py:173-184 | a candidate joins the keyframes when it is considered exactly when it passes that test |
| Keyframes.DecidedForGood | extract_keyframes_beit3.py:173-184 | what the loop decides about a candidate is never undone by later candidates |
| Keyframes.SelectGrows | extract_keyframes_beit3.py:173-184 | considering more candidates only appends keyframes |
| Keyframes.SelectAbove | extract_keyframes_beit3.py:173-184 | the keyframes added after the first `m` candidates are at position `m` or later |
| Keyframes.SelectKeyframes | extract_keyframes_beit3.py:171-184 | the loop yields the keyframe positions defined above |
| Keyframes.SceneOrderFacts | extract_keyframes_beit3.py:149-152 | the decoded candidates of a scene are increasing, decoded, inside the scene and a multiple of 6 frames after its start |
| Keyframes.FramesAt | extract_keyframes_beit3.py:188-189 | one frame per keyframe position, that position's candidate |
| Keyframes.SceneKeyframesFacts | extract_keyframes_beit3.py:144-195 | the saved frames are increasing decoded candidates of the scene; none are saved exactly when none decoded; otherwise the first decoded candidate is saved |
| Keyframes.ProcessScene | extract_keyframes_beit3.py:144-195 | the scene step saves the frames defined above |
| Keyframes.PartsAbut | extract_keyframes_beit3.py:220-224 | each part ends where the next one starts |
| Keyframes.PartsCover | extract_keyframes_beit3.py:220-224 | the first part starts at 0, the last ends at the number of files, and the first `rem` parts hold one file more than the others |
| Keyframes.PartInRange | extract_keyframes_beit3.py:220-225 | every part lies inside the file list |
| Keyframes.SelectedFiles | extract_keyframes_beit3.py:218-225 | the part id is clamped into 1 … 726, and the run takes a contiguous slice of the file list of the part's size |
| EsIngest.MappingByFirstValue | backend/app/services/elastic_search/ingest.py:89-140 | the mapping depends on the first value only: a keyword `id` always, then a keyword `objects` exactly when that value is a list, otherwise a text `content` analysed as "standard" exactly when the value is a string |
| EsIngest.PrepareDocuments | backend/app/services/elastic_search/ingest.py:142-173 | one document per key, in the data's order |
| EsIngest.DocumentsFacts | backend/app/services/elastic_search/ingest.py:146-171 | every document carries the index name and its key as `_id` and `_source.id`; a string is the content, a list the objects (and only a list), an integer a content that parses back to it |
| EsIngest.PrepareDocumentsLoop | backend/app/services/elastic_search/ingest.py:144-173 | the loop yields the documents above |
| EsIngest.TallyAccounts | backend/app/services/elastic_search/ingest.py:209-235 | when the bulk helper accounts for each document of a batch, successes plus failures is the number of documents, a raising batch counting all its documents as failed |
| EsIngest.TallyAllRaise | backend/app/services/elastic_search/ingest.py:233-235 | when every bulk call raises, nothing succeeds and every document fails |
| EsIngest.SendBatches | backend/app/services/elastic_search/ingest.py:209-235 | the batch loop yields the counts above |
| EsIngest.IngestFileFacts | backend/app/services/elastic_search/ingest.py:175-237 | an empty file is skipped; otherwise the index is the lower-cased file stem, it is created with the first value's mapping exactly when it did not exist, and every document is counted once when the helper accounts for each batch |
| EsIngest.IngestOneFile | backend/app/services/elastic_search/ingest.py:175-237 | the method yields the file outcome above |
| EsIngest.IngestAllFacts | backend/app/services/elastic_search/ingest.py:239-261 | a missing directory fails before any file; otherwise every file is attempted once, in sorted order, with its own outcome whatever happened to the others |
| EsIngest.IngestAllFiles | backend/app/services/elastic_search/ingest.py:239-261 | the loop yields the outcomes above |
| Ocr.IgnorableAnywhere | ocr.py:110-114 | an underscore or whitespace character anywhere in an id makes no difference to how it parses |
| Ocr.ParseIntLikeOfIntToStr | ocr.py:110-114 | the id `str(v)` parses back to `v` |
| Ocr.FilterPairsByIdRange | ocr.py:164-178 | a negative start and an end before the start are the two errors, checked in that order; otherwise the kept pairs are those defined by the range filter and the skipped count is the number of ids that do not parse |
| Ocr.InRangeMembers | ocr.py:169-175 | a pair is kept exactly when some index pair's id parses to a value in `start..end`, and it is kept with `str` of that value as id and the same path |
| Ocr.InRangeReparses | ocr.py:169-175 | every id the filter writes is in canonical form and parses to a value in range |
| Ocr.InRangeAppend | ocr.py:169-175 | the filter keeps index order |
| Ocr.InRangeCount | ocr.py:169-175 | kept plus skipped is at most the number of pairs, and exactly that when no numeric id is out of range |
| Ocr.Chunked | ocr.py:180-181 | a step of 0 raises and a negative step gives no batch; a positive step gives non-empty batches of at most `n` items, all full but the last, that concatenate back into the input |
| Ocr.ReadKeyLines | ocr.py:183-195 | a missing file and a file with no key are the two errors; otherwise the keys are the trimmed lines that are neither blank nor '#' comments, in order, duplicates kept |
| Ocr.SliceKeysByRange | ocr.py:197-210 | the range is accepted exactly when `1 <= start <= end` and start is within the keys, each other case failing with its own error in the source's order; the result is the keys from line `start` to `min(end, n)`, never empty |
| Ocr.CheckItem | ocr.py:525-552 | an item is written exactly when it is an object with "id" and "ocr", an int-like id and a scalar text; the row holds the parsed id and `str` of the text, a string text kept as it is; any other item logs its expected id, when that parses |
| Ocr.Outcomes | ocr.py:525 | one outcome per batch entry, pairing each with the response item at its position |
| Ocr.ValidateBatch | ocr.py:517-552 | the response is refused exactly when it is not an array of the batch's length; otherwise the rows written and the ids logged are those of the item outcomes, in batch order |
| Ocr.OutcomesCount | ocr.py:525-552 | rows written plus ids logged is at most the batch size, and exactly it when every expected id is int-like |
| Ocr.RowsMembers | ocr.py:550-552 | a row is written exactly when some item passed every check with that row |
| Ocr.BadIdsMembers | ocr.py:526-547 | an id is logged exactly when some item failed a check and had that int-like expected id |
| OcrJsonArray.StripFences | ocr.py:83 | deleting the fences never lengthens the text and keeps only characters of the text |
| OcrJsonArray.StripFencesNoBacktick | ocr.py:83 | text without a backtick comes through unchanged |
| OcrJsonArray.ParseJsonArray | ocr.py:286-288 | no answer and an empty answer give `None` |
| OcrJsonArray.ScanCandidate | ocr.py:299-318 | the inner scan of one start finds what the candidate scan defines: the first balanced candidate that decodes to an array, stopping at one that does not decode |
| OcrJsonArray.ParseJsonArrayScan | ocr.py:286-320 | the two loops compute the parse defined above |
| OcrJsonArray.ScanFromFound | ocr.py:300-318 | what one start returns is the decoded items of a candidate beginning at that '[' |
| OcrJsonArray.TryFromFound | ocr.py:297-319 | what the scan returns is the decoded items of a candidate at some '[' at or after where it began |
| OcrJsonArray.ParseJsonArrayFound | ocr.py:286-320 | an array returned comes from a non-empty answer and is what `json.loads` made of the whole cleaned text or of a balanced candidate of it |
| OcrJsonArray.RunFromAppend | ocr.py:300-311 | scanning two pieces is scanning the first and then the second from where it left off |
| OcrJsonArray.StringBodyIgnored | ocr.py:302-305 | inside a string literal, characters other than the backslash and the quote change nothing, brackets included |
| OcrJsonArray.EscapeSkipsNext | ocr.py:302-305 | a backslash inside a string literal makes the next character, a quote included, change nothing |
| OcrJsonArray.StringLiteralIgnored | ocr.py:302-308 | a whole string literal outside any other, whatever brackets it holds, leaves the depth as it was |
| OcrKeyRotator.FirstReady | ocr.py:364-369 | a position the cyclic search returns is a key that is neither banned nor cooling down |
| OcrKeyRotator.LiveKeys | ocr.py:370 | the live keys are exactly the keys not banned |
| OcrKeyRotator.Soonest | ocr.py:373 | the fallback key is live and waits no longer than any live key |
| OcrKeyRotator.SoonestIsFirst | ocr.py:373 | among keys with the same shortest wait the first is chosen: every live key before it waits strictly longer |
| OcrKeyRotator.IndexOf | ocr.py:374 | `keys.index` gives the first position holding the key |
| OcrKeyRotator.NextLiveIndex | ocr.py:362-374 | the index returned holds a key that is not banned, and the call fails exactly when every key is banned |
| OcrKeyRotator.FirstReadyIsFirst | ocr.py:364-369 | the search returns the first ready key in cyclic order from the cursor, every key it passes over being banned or cooling; finding none means no key is ready |
| OcrKeyRotator.SearchFindsReady | ocr.py:364-369 | the cyclic search visits every position, so it finds a key whenever one is ready |
| OcrKeyRotator.NextLivePrefersReady | ocr.py:362-369 | when some key is ready the result is the first ready key in cyclic order from the cursor |
| OcrKeyRotator.NextLiveFallsBackToSoonest | ocr.py:370-374 | when no key is ready but some are not banned, the result is the first position of a live key whose wait is shortest |
| OcrKeyRotator.StickyKeyRotator.constructor | ocr.py:351-360 | the keys are kept in order, at least one call per key, no cooldown, nothing banned or counted, no current key |
| OcrKeyRotator.StickyKeyRotator.NextLiveKeyIndex | ocr.py:362-374 | the loop computes the index defined above from the cursor and changes nothing |
| OcrKeyRotator.StickyKeyRotator.CurrentKey | ocr.py:376-385 | the current key is kept while it has calls left and is neither banned nor cooling; otherwise the next live key becomes current with a fresh allowance; the key returned is never banned, and the call fails exactly when every key is |
| OcrKeyRotator.StickyKeyRotator.OnCallFinished | ocr.py:387-390 | a finished call is counted for a non-empty current key and used from its allowance; nothing else changes |
| OcrKeyRotator.StickyKeyRotator.Mark429 | ocr.py:392-394 | the key cools down until `cooldown` seconds from now; nothing else changes |
| OcrKeyRotator.StickyKeyRotator.Ban | ocr.py:396-398 | the key joins the banned keys; nothing else changes |
| Temporal.NormalizedPath | backend/app/utils/temporal_aggregation.py:34-40 | the normalised path holds no backslash and is no longer than the original |
| Temporal.ExtractVideoAndFrame | backend/app/utils/temporal_aggregation.py:17-64 | an empty path fails; otherwise there is a result exactly when the normalised path has at least two parts and the file name's text before its first '.' is an integer, and then the video is the part before the file name and the frame that integer, for two-level and three-level paths alike |
| Temporal.NormalizedServed | backend/app/utils/temporal_aggregation.py:34-40 | normalising `/keyframes/<rest>` only drops the leading slash |
| Temporal.NormalizedUnderKeyframe | backend/app/utils/temporal_aggregation.py:34-40 | normalising `/keyframe/<rest>` leaves `<rest>` |
| Temporal.NormalizedUnderLevel | backend/app/utils/temporal_aggregation.py:34-40 | a relative path whose first directory is not `keyframe` is left as it is |
| Temporal.ExtractServed | backend/app/utils/temporal_aggregation.py:17-64 | a served path `/keyframes/<video>/<n><ext>` parses back to the video and frame `n` |
| Temporal.ExtractUnderKeyframe | backend/app/utils/temporal_aggregation.py:17-64 | a path `/keyframe/<video>/<n><ext>` parses to the video and frame `n` |
| Temporal.ExtractUnderLevel | backend/app/utils/temporal_aggregation.py:17-64 | a three-level path `<level>/<video>/<n><ext>` parses to the video folder, not the level, and frame `n` |
| Temporal.ExtractTooShort | backend/app/utils/temporal_aggregation.py:43-45 | a path with fewer than two parts gives no result |
| Temporal.ExtractBadStem | backend/app/utils/temporal_aggregation.py:59-64 | a file name whose stem is not an integer gives no result |
| Temporal.Built | backend/app/utils/temporal_aggregation.py:106-114 | one result per seen id, in first-seen order, each holding that id's entry |
| Temporal.TotalsOfFacts | backend/app/utils/temporal_aggregation.py:89-97 | the totals hold exactly the seen ids, each with the sum of its scores |
| Temporal.MetaOfFacts | backend/app/utils/temporal_aggregation.py:101-103 | the metadata holds exactly the seen ids, each with its first occurrence |
| Temporal.ListsOfFacts | backend/app/utils/temporal_aggregation.py:98 | the stage lists hold exactly the seen ids, each with its stages |
| Temporal.PerStageOfFacts | backend/app/utils/temporal_aggregation.py:99 | the stage scores hold exactly the seen ids, each with its scores per stage |
| Temporal.AddStage | backend/app/utils/temporal_aggregation.py:92-103 | the inner loop over one stage leaves the dictionaries describing every result seen so far, this stage's included |
| Temporal.BuildResults | backend/app/utils/temporal_aggregation.py:106-114 | the loop builds the results defined above |
| Temporal.AggregateById | backend/app/utils/temporal_aggregation.py:67-120 | the procedure computes the aggregation described by the facts below |
| Temporal.OccurrencesFirst | backend/app/utils/temporal_aggregation.py:89-103 | an id is seen exactly when some stage holds it, and its metadata is the first such result of the first stage holding it |
| Temporal.OccurrencesTotal | backend/app/utils/temporal_aggregation.py:94-97 | an id's total is the sum of its scores over every stage |
| Temporal.OccurrencesStages | backend/app/utils/temporal_aggregation.py:98-99 | an id's stage list has stage `k + 1` once per result of stage `k` carrying it, and its stage score per stage is that of the stage's last such result |
| Temporal.CountDistinct | backend/app/utils/temporal_aggregation.py:98-99 | within a stage whose ids are distinct, an id occurs at most once and its stage score is its one score there |
| Temporal.StageListOrdered | backend/app/utils/temporal_aggregation.py:98-111 | stage numbers lie between 1 and the number of stages and are already in ascending order, so `sorted` leaves the list as it is |
| Temporal.StageListDistinct | backend/app/utils/temporal_aggregation.py:98-113 | with distinct ids per stage the stage list is strictly increasing and holds exactly the stages carrying the id |
| Temporal.StageScoreMapDistinct | backend/app/utils/temporal_aggregation.py:99-112 | with distinct ids per stage the stage scores map exactly the stages carrying the id, each to the id's score there |
| Temporal.AggregationFacts | backend/app/utils/temporal_aggregation.py:67-120 | one aggregate per id some stage holds, none twice, each the id's first result with its total, stage list and stage scores, highest total first |
| Temporal.AggregationTies | backend/app/utils/temporal_aggregation.py:107-117 | equal totals keep the order in which their ids were first seen |
| TemporalTuples.GroupMembers | backend/app/utils/temporal_aggregation.py:157-166 | a video's group holds exactly the results of the stage that parse to that video, each with its frame |
| TemporalTuples.StageGroupsFacts | backend/app/utils/temporal_aggregation.py:154-172 | a video has a group exactly when some result of the stage parses to it; the group holds exactly those results with their frames, in ascending frame order |
| TemporalTuples.Shared | backend/app/utils/temporal_aggregation.py:179-181 | a key is shared exactly when it is one of the keys and every stage has a group for it |
| TemporalTuples.StageData | backend/app/utils/temporal_aggregation.py:153-172 | one group dictionary per stage, in stage order |
| TemporalTuples.CommonVideosFacts | backend/app/utils/temporal_aggregation.py:179-193 | the common videos come in ascending order, none twice, and are exactly the videos every stage has a parsed result for |
| TemporalTuples.ProductMembers | backend/app/utils/temporal_aggregation.py:201 | `product` yields exactly the sequences taking their `k`-th element from the `k`-th list |
| TemporalTuples.GroupsFor | backend/app/utils/temporal_aggregation.py:195-198 | one list per stage, the stage's group for the video |
| TemporalTuples.Numbered | backend/app/utils/temporal_aggregation.py:210-219 | the tuples are numbered from 0 in the order they are found |
| TemporalTuples.FoundExactly | backend/app/utils/temporal_aggregation.py:193-207 | the combinations found are exactly the one-result-per-stage combinations of a common video whose frames strictly increase |
| TemporalTuples.CombinationInAll | backend/app/utils/temporal_aggregation.py:179-198 | a video with such a combination has a group in every stage |
| TemporalTuples.MakeTupleFacts | backend/app/utils/temporal_aggregation.py:203-217 | a tuple made from an increasing combination records the video, one result per stage, the increasing frames, the summed score and the number of stages |
| TemporalTuples.AllTuplesFacts | backend/app/utils/temporal_aggregation.py:190-219 | every tuple that can be collected is well formed and numbered by its position |
| TemporalTuples.AllTuplesComplete | backend/app/utils/temporal_aggregation.py:190-219 | every increasing combination of a common video is among the tuples that can be collected |
| TemporalTuples.TupleResultShape | backend/app/utils/temporal_aggregation.py:229-231 | the tuples returned were collected, come highest total first, are at most `max_tuples` and none twice |
| TemporalTuples.TupleResultFacts | backend/app/utils/temporal_aggregation.py:123-234 | no stages or a non-positive `max_tuples` give nothing; otherwise at most `max_tuples` well-formed tuples, no `tuple_id` twice, highest total first |
| TemporalTuples.TupleResultUncapped | backend/app/utils/temporal_aggregation.py:221-231 | with no more than `10 * max_tuples` candidates nothing is lost: the result is the best `max_tuples` of them all |
| TemporalTuples.NoCommonVideo | backend/app/utils/temporal_aggregation.py:183-185 | with no video common to all stages nothing is found |
| TemporalTuples.NothingKept | backend/app/utils/temporal_aggregation.py:222-231 | a non-positive `max_tuples` lets at most one tuple be collected, and `[:max_tuples]` of it is empty |
| TemporalTuples.CollectGroups | backend/app/utils/temporal_aggregation.py:155-166 | the loop yields the videos in insertion order and their results as appended |
| TemporalTuples.SortGroups | backend/app/utils/temporal_aggregation.py:169-170 | every video's list ends up sorted by frame, stably |
| TemporalTuples.GroupStage | backend/app/utils/temporal_aggregation.py:155-172 | one stage's grouping yields the groups defined above |
| TemporalTuples.GroupStages | backend/app/utils/temporal_aggregation.py:153-173 | the stage loop yields the stage data defined above |
| TemporalTuples.CommonSet | backend/app/utils/temporal_aggregation.py:179-181 | the common set holds exactly the videos every stage has |
| TemporalTuples.SortedCommon | backend/app/utils/temporal_aggregation.py:193 | `sorted(common_videos)` is the shared videos in ascending order |
| TemporalTuples.CollectVideo | backend/app/utils/temporal_aggregation.py:201-223 | the inner loop appends, numbered on from the count so far, the increasing combinations among the first `k` of the video's, and stops early only once the cap is reached |
| TemporalTuples.CollectTuples | backend/app/utils/temporal_aggregation.py:190-227 | the nested loops with their two `break`s collect a prefix of all that can be found: exactly `min(cap, found)` tuples for a positive cap, at most one otherwise |
| TemporalTuples.FindTemporalTuples | backend/app/utils/temporal_aggregation.py:123-234 | the procedure computes the tuple result whose facts are stated above |
| Multistage.EnabledMethods | backend/app/routers/search_multistage.py:226-234 | multimodal is enabled exactly when "multimodal" or "multiModal" is on, captions exactly when "ic" or "caption" is, ASR and OCR exactly when their own toggle is |
| Multistage.NothingEnabled | backend/app/routers/search_multistage.py:226-236 | no method is enabled exactly when none of the six toggles is on |
| Multistage.CollectEnabled | backend/app/routers/search_multistage.py:226-234 | the four `add` steps build exactly the enabled set |
| Multistage.EnabledCount | backend/app/routers/search_multistage.py:197 | `len(enabled_methods)` counts the four methods one by one |
| Multistage.ScoresOverwritten | backend/app/routers/search_multistage.py:172-173 | the overwrite keeps every hit's id, path and other fields and its position, replaces the first `min(len(results), len(scaled))` scores and leaves any further hit as it was |
| Multistage.ScoresOverwrittenSameLength | backend/app/routers/search_multistage.py:170-173 | with as many scores as hits the overwrite gives exactly the new scores |
| Multistage.OverwriteScores | backend/app/routers/search_multistage.py:172-173 | the `zip` loop performs the overwrite above |
| Multistage.CaptionScaledFacts | backend/app/routers/search_multistage.py:167-174 | the caption list keeps its hits in order and its scores become their min-max rescaling, each in [0, 1] |
| Multistage.PerMethodShape | backend/app/routers/search_multistage.py:149-194 | the per-method dict holds one entry per enabled method in the order multimodal, ic, asr, ocr, plus the three model lists right after multimodal in mode "A" |
| Multistage.NoMethodStage | backend/app/routers/search_multistage.py:236-250 | a stage with no toggle on makes no search and returns no results, an empty method list and its query as all three variants |
| Multistage.SearchedStage | backend/app/routers/search_multistage.py:253-276 | a stage with a method enabled searches the translated query and its two rewordings with the same OCR text, and fails when any of the three searches raises |
| Multistage.QueryTextUntranslated | backend/app/routers/search_multistage.py:253-256 | with ASR enabled, or a query that does not read as Vietnamese, the first variant is the query itself |
| Multistage.UnfilteredStage | backend/app/routers/search_multistage.py:279-330 | without selected objects the stage results are at most `top_k` distinct ids in non-increasing score, each scored the mean of its three variant scores and carrying the first variant result holding it; the variant lists are cut at `top_k` in modes "A" and "M" and the per-method dict is kept only in mode "M" |
| Multistage.FilteredStage | backend/app/routers/search_multistage.py:300-317 | with selected objects the stage keeps exactly the fused items whose `str(id)` the filter returns, in fused order, so still ranked and distinct, and filters each variant list the same way in modes "A" and "M" |
| Multistage.TranscriptsUnreachable | backend/app/services/method/asr_ocr.py:59-65 | with ASR or OCR enabled and Elasticsearch unreachable, the transcript step raises the constructor's error and so does the query's search |
| Multistage.StageTranscriptsUnreachable | backend/app/routers/search_multistage.py:176-194 | a stage that enables ASR or OCR fails when Elasticsearch cannot be reached |
| Multistage.TranscriptsUnreachableEndpoint | backend/app/routers/search_multistage.py:433-435 | a request one of whose stages enables ASR or OCR gets HTTP 500 when Elasticsearch cannot be reached |
| Multistage.FilterUnavailable | backend/app/routers/search_multistage.py:300-306 | a stage with selected objects fails when the object index cannot be reached |
| Multistage.TopKOf | backend/app/routers/search_multistage.py:363 | an absent or zero `top_k` becomes the default of 10, any other value is kept |
| Multistage.ResultLists | backend/app/routers/search_multistage.py:394 | one result list per stage, in stage order |
| Multistage.RunStagesFacts | backend/app/routers/search_multistage.py:377-382 | each stage result is that stage's own processing, in request order, and the run fails exactly when a stage fails |
| Multistage.AllStagesFacts | backend/app/routers/search_multistage.py:377-382 | the same for the stages of a request |
| Multistage.NoStages | backend/app/routers/search_multistage.py:366-431 | a request without stages is refused with 400 |
| Multistage.StagesAnswered | backend/app/routers/search_multistage.py:350-435 | a request with stages gets a 500 or one result per stage, in request order, each its processing with the effective `top_k` and mode; it succeeds exactly when the augmentor builds and every stage succeeds |
| Multistage.TemporalDispatch | backend/app/routers/search_multistage.py:387-412 | mode "id" gives the first `top_k` aggregated entries with the full count as total; "tuple" gives at most `top_k` ranked, valid temporal tuples; any other mode gives no aggregation |
| Multistage.SearchModels | backend/app/routers/search_multistage.py:153-156 | the three model searches, each with `top_k * 2` |
| Multistage.SearchModelPart | backend/app/routers/search_multistage.py:152-164 | step 1 yields the multimodal entries defined by the model |
| Multistage.SearchCaptionPart | backend/app/routers/search_multistage.py:167-174 | step 2 yields the caption entry defined by the model |
| Multistage.SearchTranscriptPart | backend/app/routers/search_multistage.py:177-194 | steps 3 and 4 yield the ASR and OCR entries defined by the model, or the error `get_asr_ocr_search()` raised when either step is enabled and Elasticsearch cannot be reached |
| Multistage.SearchSingleQuery | backend/app/routers/search_multistage.py:144-202 | one query's search yields the per-method dict and final list defined by the model |
| Multistage.FinishStage | backend/app/routers/search_multistage.py:279-346 | the part after the searches yields the stage result defined by the model |
| Multistage.ProcessSingleStage | backend/app/routers/search_multistage.py:215-346 | one stage's processing yields the stage result whose facts are stated above |
| Multistage.FailureSticks | backend/app/routers/search_multistage.py:377-382 | once a stage fails, the whole run fails with its error |
| Multistage.ProcessStages | backend/app/routers/search_multistage.py:377-382 | the stages are processed one after the other into the result defined above |
| Multistage.HandleMultistage | backend/app/routers/search_multistage.py:350-435 | the endpoint computes the response whose facts are stated above |
| Multistage.AsWrittenEndpointFails | backend/app/routers/search_multistage.py:364-435 | with the augmentor constructor as written, every request with stages ends in HTTP 500 |
| Augmented.SectionMethods | backend/app/routers/search_augmented.py:301-309 | a section enables a method exactly when its own name is toggled on; the aliases of the multistage endpoint do not count here |
| Augmented.ToggledMembers | backend/app/routers/search_augmented.py:299-309 | a method is toggled exactly when some section toggles its name on |
| Augmented.EnabledFacts | backend/app/routers/search_augmented.py:296-312 | the enabled set is never empty: it is what the sections toggle, or multimodal with ic when they toggle nothing |
| Augmented.CollectMethods | backend/app/routers/search_augmented.py:297-312 | the loop over the sections builds exactly the enabled set |
| Augmented.FirstOcrTextFacts | backend/app/routers/search_augmented.py:332-336 | the OCR text is the first one given by a section with OCR on, and there is none exactly when no section gives one |
| Augmented.FindOcrText | backend/app/routers/search_augmented.py:331-336 | the loop that stops at the first OCR text finds the text defined above |
| Augmented.ApplyObjectFilterPassThrough | backend/app/routers/search_augmented.py:166-167 | no results, no filter or no selected objects leave the results as they are |
| Augmented.ApplyObjectFilterKeeps | backend/app/routers/search_augmented.py:164-181 | otherwise exactly the results whose `str(id)` the filter returns are kept, in their order |
| Augmented.ApplyObjectFilterRanked | backend/app/routers/search_augmented.py:177 | a list ranked by score stays ranked |
| Augmented.ApplyObjectFilterDistinct | backend/app/routers/search_augmented.py:177 | a list with distinct ids keeps them distinct |
| Augmented.FusableAppend | backend/app/routers/search_augmented.py:142 | the comprehension drops entries key by key, keeping the order of the rest |
| Augmented.FusesEnabledOnly | backend/app/routers/search_augmented.py:89-143 | the per-model lists are reported but never fused: the fusion takes the multimodal list and then one list per other enabled method |
| Augmented.TextEntriesFused | backend/app/routers/search_augmented.py:94-142 | the ic, asr and ocr entries of an enabled method are all fused, whenever the caption and transcript steps succeed |
| Augmented.QueryHasMethods | backend/app/routers/search_augmented.py:58-146 | a query search that succeeds holds an entry for every enabled method |
| Augmented.Listed | backend/app/routers/search_augmented.py:362 | the loop visits only enabled methods |
| Augmented.Q3Complete | backend/app/routers/search_augmented.py:359-369 | when the three dicts hold every enabled method, Q3 has one entry per method, in order |
| Augmented.EnsembleNameFresh | backend/app/routers/search_augmented.py:364-376 | no per-method Q3 entry is called `ensemble_of_ensemble` |
| Augmented.AnswerFacts | backend/app/routers/search_augmented.py:359-398 | Q3 holds `<m>_ensemble` for every enabled method, each the cross-query fusion of that method's lists, then `ensemble_of_ensemble`, the fusion of those entries alone; `total` is its length and the original query and method are echoed |
| Augmented.SearchedQueries | backend/app/routers/search_augmented.py:316-407 | the three queries are the translated text and its two rewordings, all searched with the same methods, OCR text and object filter; the answer is built from them, and a search that raises gives a 500 |
| Augmented.SearchModelPart | backend/app/routers/search_augmented.py:73-92 | the multimodal step yields the entries defined by the model |
| Augmented.SearchCaptionPart | backend/app/routers/search_augmented.py:95-108 | the caption step yields the entry defined by the model |
| Augmented.SearchTranscriptPart | backend/app/routers/search_augmented.py:111-139 | the ASR and OCR steps yield the filtered, rescaled entries defined by the model, or the error `get_asr_ocr_search()` raised when either step is enabled and Elasticsearch cannot be reached |
| Augmented.TranscriptsUnreachable | backend/app/services/method/asr_ocr.py:152-157 | with ASR or OCR enabled and Elasticsearch unreachable, the transcript step raises the constructor's error and the query's search fails |
| Augmented.TranscriptsUnreachableEndpoint | backend/app/routers/search_augmented.py:405-407 | a request that enables ASR or OCR gets HTTP 500 when Elasticsearch cannot be reached |
| Augmented.TranscriptEntriesLookup | backend/app/routers/search_augmented.py:111-142 | the transcript step holds an `asr` entry when ASR is enabled and an `ocr` entry when OCR is |
| Augmented.SelectEnabled | backend/app/routers/search_augmented.py:142 | the comprehension keeps the enabled methods' entries |
| Augmented.SearchQuery | backend/app/routers/search_augmented.py:58-146 | one query's search yields the method dict defined by the model |
| Augmented.BuildQ3 | backend/app/routers/search_augmented.py:360-369 | the Q3 loop yields the entries defined above |
| Augmented.HandleAugmented | backend/app/routers/search_augmented.py:285-407 | the endpoint computes the response whose facts are stated above |
| Augmented.NotFused | backend/app/routers/search_augmented.py:142 | an entry whose key is not an enabled method name is dropped before fusion |
| Augmented.ModelEntriesFusable | backend/app/routers/search_augmented.py:89-142 | of the multimodal and per-model entries only the multimodal list is fused |
| Augmented.AsWrittenEndpointFails | backend/app/routers/search_augmented.py:326-407 | with the augmentor constructor as written, every request ends in HTTP 500 |
| Ensembles.ListTotal | backend/app/routers/search_multistage.py:121-128 | an id's fused sum is the weight times its scores summed over every list |
| Ensembles.ListMentions | backend/app/routers/search_multistage.py:121-130 | an id is fused exactly when some list holds it, and keeps the metadata of its first occurrence |
| Ensembles.ListFusedFacts | backend/app/routers/search_multistage.py:121-141 | an equal-weight fusion returns at most `top_k` distinct ids, each the first occurrence with the weighted sum of its scores, in non-increasing order |
| Ensembles.ListFusedItem | backend/app/routers/search_multistage.py:132-139 | one entry of such a fusion is the first occurrence of its id with the weighted sum as score |
| Ensembles.ListFusedDrops | backend/app/routers/search_multistage.py:132 | `[:top_k]` drops only ids whose sums are no higher than any kept one, and none when `top_k` reaches the number of ids |
| Ensembles.VisitLists | backend/app/routers/search_multistage.py:121-130 | the loop over the lists, skipping empty ones, visits every hit in order |
| Ensembles.EnsembleAllMethods | backend/app/routers/search_multistage.py:110-141 | the procedure computes the method fusion whose facts are stated below |
| Ensembles.EnsembleMethodsFacts | backend/app/routers/search_multistage.py:110-141 | an empty dict gives no results; otherwise each fused id scores the mean of its scores over the dict's methods, a method lacking it counting as 0 |
| Ensembles.EmptyMethodDilutes | backend/app/routers/search_multistage.py:115-123 | a method that found nothing still counts: it adds nothing to a sum but lowers every weight from `1/n` to `1/(n+1)` |
| Ensembles.EnsembleCrossQueries | backend/app/routers/search_augmented.py:253-282 | the procedure computes the variant fusion whose facts are stated below |
| Ensembles.CrossFirst | backend/app/routers/search_augmented.py:258-271 | an id's metadata comes from Q0, else Q1, else Q2, the first occurrence in that list |
| Ensembles.CrossQueriesFacts | backend/app/routers/search_augmented.py:253-282 | at most `top_k` distinct ids, each scored (s0 + s1 + s2) / 3 with an absent list counting 0, in non-increasing order, each carrying the first variant result holding it |
| Ensembles.EnsembleMultimodalResults | backend/app/routers/search_multistage.py:72-107 | the procedure computes the three-model fusion whose facts are stated below |
| Ensembles.MultimodalFacts | backend/app/routers/search_multistage.py:72-107 | at most `top_k` entries, with distinct ids |
| Ensembles.MultimodalItem | backend/app/routers/search_multistage.py:86-105 | each entry keeps the metadata of its id's first occurrence in clip, beit3, bigg order, with a rescaled score in [0, 1] |
| Ensembles.MultimodalOrder | backend/app/routers/search_multistage.py:97-105 | entries are ranked by their weighted z-score sums (0.25, 0.50, 0.25) and their rescaled scores follow that ranking |
| Ensembles.MultimodalEqualSums | backend/app/routers/search_multistage.py:98 | when every kept id has the same fused sum, every score is 1.0 |
| Ensembles.KeepIdsOrdered | backend/app/routers/search_multistage.py:307 | keeping only some ids keeps a ranked list ranked |
| Ensembles.KeepIdsBounded | backend/app/routers/search_multistage.py:307 | a bound on every score bounds every kept score |
| Ensembles.KeepIdsDistinct | backend/app/routers/search_multistage.py:307 | keeping only some ids keeps them distinct |
| Ensembles.KeepIdsMembers | backend/app/routers/search_multistage.py:305-307 | the kept hits are exactly the hits whose `str(id)` is kept |
| Ensembles.KeepIdsAll | backend/app/routers/search_multistage.py:307 | when every id passes, the whole list is kept |
| Fusion.Weighted | backend/app/routers/search_multistage.py:86-89 | one contribution per hit, in order, its amount the hit's score times the weight |
| Fusion.TotalWeighted | backend/app/routers/search_multistage.py:86-89 | a weighted list adds, for an id, the weight times the sum of the id's scores in it |
| Fusion.ScoreSumAbsent | backend/app/routers/search_multistage.py:86-89 | a list without the id adds nothing to its sum |
| Fusion.FirstHitAppend | backend/app/routers/search_multistage.py:90-91 | the metadata comes from the first list that holds the id |
| Fusion.FirstHitWeighted | backend/app/routers/search_multistage.py:86-91 | a weighted list mentions exactly the ids of its hits, and its first hit for an id is the first hit carrying it |
| Fusion.FirstIndex | backend/app/routers/search_multistage.py:90-91 | the first contribution carrying the id, none before it carrying it |
| Fusion.FirstIndexPrefix | backend/app/routers/search_multistage.py:90-91 | later contributions never change an id's first occurrence |
| Fusion.KeysOfFacts | backend/app/routers/search_multistage.py:83-91 | the dict holds each mentioned id once and no other |
| Fusion.KeysOfOrder | backend/app/routers/search_multistage.py:83-91 | the dict's keys come in first-occurrence order, as a Python dict inserts them |
| Fusion.TotalAppend | backend/app/routers/search_multistage.py:83-89 | an id's sum over two runs of contributions is the sum of its two sums |
| Fusion.TotalAbsent | backend/app/routers/search_multistage.py:83 | an id no contribution mentions sums to 0.0, the `defaultdict(float)` default |
| Fusion.Entries | backend/app/routers/search_multistage.py:97 | one item per key, in insertion order, holding the key's sum |
| Fusion.SortedMembers | backend/app/routers/search_multistage.py:97 | every sorted item is an item of the dict |
| Fusion.RankedFacts | backend/app/routers/search_multistage.py:97-132 | each ranked item is an id with its summed score; ids do not repeat, scores do not increase, and a non-negative `top_k` keeps `min(top_k, #ids)` items |
| Fusion.RankedOutranks | backend/app/routers/search_multistage.py:132 | whatever `[:top_k]` drops scored no higher than anything it keeps |
| Fusion.RankedComplete | backend/app/routers/search_multistage.py:132 | a `top_k` at least the number of ids keeps every id |
| Fusion.RankedTies | backend/app/routers/search_multistage.py:132 | the sort is stable: equal sums keep the order in which their ids were first seen |
| Fusion.Attach | backend/app/routers/search_multistage.py:134-139 | each result is the id's first hit with its new score |
| Fusion.FusedFacts | backend/app/routers/search_multistage.py:110-141 | a fused list holds the ranked ids, in ranked order, none twice, each its first hit's metadata with its summed score, scores non-increasing |
| Fusion.FusedRescaledFacts | backend/app/routers/search_multistage.py:97-105 | min-max rescaling keeps the fused ids, their order and metadata, keeps the order of the scores and puts each in [0, 1] |
| Fusion.Accumulate | backend/app/routers/search_multistage.py:83-130 | the accumulation loop leaves exactly the mentioned ids in both dicts, each with its sum and its first hit, and the keys in insertion order |
| Fusion.CopyOut | backend/app/routers/search_multistage.py:100-139 | the copy loop builds the result list above |
| Fusion.Fuse | backend/app/routers/search_multistage.py:132-141 | sorting, cutting at `top_k` and copying give the fused list |
| Fusion.FuseRescaled | backend/app/routers/search_multistage.py:97-107 | the same with the kept scores min-max rescaled |
| Hits.IdStr | backend/app/routers/search_multistage.py:305 | `str` of a string id is the id; of an integer id, text that parses back to it |
| Hits.KeepIds | backend/app/routers/search_multistage.py:307 | filtering never lengthens a list |
| Hits.FirstIndexOf | backend/app/routers/search_multistage.py:90-91 | the position of the first hit carrying the id, or none exactly when no hit carries it |
| Hits.WithScoresKeeps | backend/app/routers/search_multistage.py:172-173 | replacing the scores keeps the ids and yields exactly the new scores |
| Scale.Min | backend/app/utils/scale.py:29 | the minimum is one of the scores and no score is below it |
| Scale.Max | backend/app/utils/scale.py:31 | the maximum is one of the scores and no score is above it |
| Scale.MinMaxScale | backend/app/utils/scale.py:11-40 | one scaled score per input score |
| Scale.MinMaxAt | backend/app/utils/scale.py:28-38 | each score becomes (x - min) / (max - min), or 1.0 when all scores are equal |
| Scale.MinMaxInUnit | backend/app/utils/scale.py:11-40 | min-max scaling maps every score into [0, 1] |
| Scale.MinMaxMonotone | backend/app/utils/scale.py:38 | min-max scaling keeps the order of scores, strictly when they differ |
| Scale.MinMaxConstant | backend/app/utils/scale.py:34-35 | a list of equal scores maps to all 1.0 |
| Scale.MinMaxExtremes | backend/app/utils/scale.py:38 | when the scores differ the minimum maps to 0.0 and the maximum to 1.0 |
| Scale.ZScoreNormalize | backend/app/utils/scale.py:43-73 | one z-score per input score |
| Scale.ZScoresSumToZero | backend/app/utils/scale.py:70-71 | the z-scores of a list with non-zero spread sum to zero |
| Scale.ZScoreScale | backend/app/utils/scale.py:76-109 | one scaled score per input score |
| Scale.ZScoreScaleProperties | backend/app/utils/scale.py:100-107 | with a logistic function into [0, 1] that is increasing, the scaling stays in [0, 1] and keeps the order of scores when the spread is positive |
| Scale.Clip01 | backend/app/utils/scale.py:141 | clipping lands in [0, 1] and leaves a value already there unchanged |
| Scale.PercentileScale | backend/app/utils/scale.py:112-143 | one score per input, each in [0, 1] |
| Scale.PercentileMonotone | backend/app/utils/scale.py:130-141 | percentile scaling keeps the order of scores; the minimum maps to 0.0 when the percentile differs from it, and every score at or above the percentile maps to 1.0 |
| Scale.PercentileAt | backend/app/utils/scale.py:133-141 | each score becomes its clipped (x - min) / (p - min) for the percentile p, or 1.0 when p equals the minimum |
| Scale.ScaleScores | backend/app/utils/scale.py:165-173 | the chosen scaling gives one score per input |
| Scale.UnknownMethodIsMinMax | backend/app/utils/scale.py:171-173 | an unknown method name falls back to min-max |
| Scale.ScaleSearchResults | backend/app/utils/scale.py:146-182 | the same hits in the same order, each carrying its scaled score, in [0, 1] for min-max and unknown names |
| MethodMultiModel.Wrap | backend/app/services/method/multimodel_search.py:35-40 | an embedding call yields its first row, and yields None exactly when the client raised, returned None or returned an empty array |
| MethodMultiModel.SearchCollection | backend/app/services/method/multimodel_search.py:50-56 | a missing embedding or a failing vector store gives []; otherwise the store's hits |
| MethodMultiModel.PresentAll | backend/app/services/method/multimodel_search.py:96-103 | one result dict per ranked entry, in order, each built from that entry alone |
| MethodMultiModel.PresentLoop | backend/app/services/method/multimodel_search.py:96-104 | the result-building loop produces exactly the presented list |
| MethodMultiModel.Search | backend/app/services/method/multimodel_search.py:58-104 | the ensemble search method returns the list that the specification of `search` gives for the same backends |
| MethodMultiModel.ModelTotal | backend/app/services/method/multimodel_search.py:81-86 | what one model's accumulate adds to an id is its weight times the sum of that id's z-scores |
| MethodMultiModel.ContributionsTotal | backend/app/services/method/multimodel_search.py:78-90 | the ensemble score of an id is the weighted sum, over the three models, of its z-scores |
| MethodMultiModel.AbsentModelAddsNothing | backend/app/services/method/multimodel_search.py:81-86 | a model that does not list an id adds nothing to that id's ensemble score |
| MethodMultiModel.ContributionsFirst | backend/app/services/method/multimodel_search.py:85-90 | an id gets metadata exactly when some model lists it, and the metadata is its first hit in clip, beit3, bigg order |
| MethodMultiModel.PresentedFacts | backend/app/services/method/multimodel_search.py:92-104 | the presented list has at most `top_k` distinct ids, each mentioned by some hit, with a score in [0, 1], its first hit's payload and its keyframe path, in non-increasing order of ensemble sums |
| MethodMultiModel.PresentedItems | backend/app/services/method/multimodel_search.py:94-103 | each presented item is the ranked id at that position, with a score in [0, 1], its first hit's payload and its keyframe path |
| MethodMultiModel.PresentedOrder | backend/app/services/method/multimodel_search.py:92 | the presented ids are distinct and ordered by non-increasing ensemble sum |
| MethodMultiModel.SearchFacts | backend/app/services/method/multimodel_search.py:58-104 | `search` returns at most `top_k` distinct ids found by some model, ranked by weighted z-score sum, rescaled into [0, 1], each with its first-seen payload and keyframe path |
| MethodMultiModel.PickModel | backend/app/services/method/multimodel_search.py:112-134 | a model is picked exactly for the names clip, beit3 and bigg |
| MethodMultiModel.Rescored | backend/app/services/method/multimodel_search.py:140-147 | rescoring keeps the number of hits |
| MethodMultiModel.SearchSingleModel | backend/app/services/method/multimodel_search.py:106-147 | the single-model method returns what the specification of `search_single_model` gives, including the store's failure |
| MethodMultiModel.SingleModelUnknown | backend/app/services/method/multimodel_search.py:110-134 | any model name other than clip, beit3 or bigg, in any letter case, gives [] |
| MethodMultiModel.SingleModelNoEmbedding | backend/app/services/method/multimodel_search.py:113-137 | a raising, None or empty embedding gives [] without a vector search |
| MethodMultiModel.RescoredFacts | backend/app/services/method/multimodel_search.py:140-147 | rescoring keeps the hits' ids, order and payloads, puts every score in [0, 1], keeps the score order and sets each keyframe path |
| ServicesMultiModel.Normalized | backend/app/services/multimodel_search.py:47-55 | a positive weight total gives weights proportional to the given ones that sum to one; otherwise a third each |
| ServicesMultiModel.DefaultWeights | backend/app/services/multimodel_search.py:42-55 | the default weights 1.0, 2.0 and 1.0 normalise to 0.25, 0.50 and 0.25 |
| ServicesMultiModel.SearchCollection | backend/app/services/multimodel_search.py:134-180 | a missing embedding or a failing vector store gives []; otherwise the store's hits |
| ServicesMultiModel.ScaledHits | backend/app/services/multimodel_search.py:193-195 | scaling a model's results keeps their number |
| ServicesMultiModel.Scaled | backend/app/services/multimodel_search.py:193-195 | scaling keeps each model's number of results |
| ServicesMultiModel.PickModel | backend/app/services/multimodel_search.py:265-287 | a model is picked exactly for the names clip, beit3 and blip2 |
| ServicesMultiModel.Annotated | backend/app/services/multimodel_search.py:299-304 | a hit gets a keyframe path only when its id is truthy and resolves, and nothing else about it changes |
| ServicesMultiModel.AnnotatedAll | backend/app/services/multimodel_search.py:299-305 | every hit is annotated in place, in order |
| ServicesMultiModel.MultiModelSearch.constructor | backend/app/services/multimodel_search.py:25-57 | omitted weights and scale method come from the settings, and the kept weights are their normalisation |
| ServicesMultiModel.MultiModelSearch.Search | backend/app/services/multimodel_search.py:70-244 | the ensemble search method returns what the specification of `search` gives for the instance's weights and scale method |
| ServicesMultiModel.MultiModelSearch.SearchSingleModel | backend/app/services/multimodel_search.py:246-308 | the single-model method returns what the specification of `search_single_model` gives, including a raising embedding client |
| ServicesMultiModel.AnnotateLoop | backend/app/services/multimodel_search.py:299-304 | the in-place loop over the scaled hits sets `keyframe_path` exactly on the hits whose id is truthy and whose path resolves, and leaves every other hit unchanged |
| ServicesMultiModel.WeightedScoreFactor | backend/app/services/multimodel_search.py:201-220 | one model's loop adds to an id its weight times the sum of that id's scaled scores |
| ServicesMultiModel.ContributionsTotal | backend/app/services/multimodel_search.py:198-220 | the ensemble score of an id is the sum of what the three loops add to it |
| ServicesMultiModel.AbsentModelAddsNothing | backend/app/services/multimodel_search.py:201-220 | a model that does not list an id adds nothing to its ensemble score |
| ServicesMultiModel.ScaledFirst | backend/app/services/multimodel_search.py:193-206 | scaling keeps the first position of every id and that hit's payload |
| ServicesMultiModel.ContributionsFirst | backend/app/services/multimodel_search.py:199-220 | an id gets metadata exactly when some model lists it, and it is the payload of its first hit in clip, beit3, blip2 order |
| ServicesMultiModel.PresentedFused | backend/app/services/multimodel_search.py:222-240 | the presented list has at most `top_k` distinct ids, each with its summed score, its first hit's payload and its keyframe path, in non-increasing score order |
| ServicesMultiModel.SearchFacts | backend/app/services/multimodel_search.py:70-244 | `search` returns at most `top_k` distinct ids found by some model, in non-increasing order of their weighted scaled-score sums, each with its first-seen payload and keyframe path |
| ServicesMultiModel.SingleModelUnknown | backend/app/services/multimodel_search.py:265-287 | any model name other than clip, beit3 or blip2, in any letter case, gives [] |
| ServicesMultiModel.SingleModelBigg | backend/app/services/multimodel_search.py:258-287 | the name bigg is unknown to this service and gives [] |
| ServicesMultiModel.SingleModelErrors | backend/app/services/multimodel_search.py:265-308 | a raising embedding client escapes as an error exactly as the source lets it, an empty embedding gives [], and a failing vector store gives [] |
| ServicesMultiModel.SingleModelFacts | backend/app/services/multimodel_search.py:289-305 | a successful single-model search keeps the store's hits, order and payloads, replaces each score by its scaled value and sets the path of exactly the truthy ids that resolve |
| Mapping.StripFirstPrefixNone | backend/app/utils/mapping.py:80-83 | a path that starts with none of the listed prefixes is left unchanged |
| Mapping.StripFirstPrefixFirst | backend/app/utils/mapping.py:72-83 | exactly one prefix is removed: the first in list order that the path starts with |
| Mapping.RemovePrefix | backend/app/utils/mapping.py:80-83 | the prefix loop with its `break` computes the first-match prefix removal |
| Mapping.StripFirstPrefixSuffix | backend/app/utils/mapping.py:80-83 | removing a prefix leaves a suffix of the path |
| Mapping.GetKeyframePath | backend/app/utils/mapping.py:44-93 | the lookup returns the located path of `str(result_id)` or None |
| Mapping.KeyframePathFound | backend/app/utils/mapping.py:58-60 | a path is found exactly when `str(result_id)` is a key of the mapping |
| Mapping.LocateShape | backend/app/utils/mapping.py:69-90 | a found path always starts with `/keyframes/` and, since backslashes become slashes first, holds no backslash |
| Mapping.PrefixedShape | backend/app/utils/mapping.py:90 | the `/keyframes/` head survives concatenation with a backslash-free rest |
| Mapping.LocateUnderFirstPrefix | backend/app/utils/mapping.py:72-90 | a path under `backend/app/data/keyframe/` whose rest has no backslash and no `k` is served as `/keyframes/` plus that rest |
| Mapping.LocateExample | backend/app/utils/mapping.py:52-53 | `backend/app/data/keyframe/L01_V001/0.webp` becomes `/keyframes/L01_V001/0.webp` |
| Translator.FirstVietnamese | backend/app/utils/translator.py:12-21 | the pattern search finds the first Vietnamese letter, and finds none exactly when no character is one |
| Translator.IsVietnameseSpec | backend/app/utils/translator.py:17-21 | a text is Vietnamese exactly when some character is a Vietnamese letter in either case; a missing or empty text never is |
| Translator.VietnameseExamples | backend/app/utils/translator.py:12-21 | words with diacritics are detected in lower and upper case; plain "pho" is not |
| Translator.PlainAsciiNotVietnamese | backend/app/utils/translator.py:12 | an all-ASCII text is never detected as Vietnamese |
| Translator.TranslateUnchanged | backend/app/utils/translator.py:28-34 | blank or non-Vietnamese text is returned unchanged whatever the translator would do |
| Translator.TranslateVietnamese | backend/app/utils/translator.py:36-42 | Vietnamese text becomes the translation of its stripped form, or stays as it was when the translator raises |
| Translator.VietnameseWide | backend/app/utils/translator.py:12 | every Vietnamese letter lies between U+00C0 and U+1EF9 |
| Translator.VietnameseNotSpace | backend/app/utils/translator.py:12 | no Vietnamese letter is white space, so a text holding one is never blank |
| Qdrant.WithoutTextKeys | backend/app/services/vector_db/qdrant_client.py:66-70 | the dict loses exactly the `objectFilter` and `selectedObjects` keys and keeps every other entry |
| Qdrant.ConvertFilterSpec | backend/app/services/vector_db/qdrant_client.py:53-84 | a filter results exactly when a `must`/`should`/`must_not` key survives the removal of the text-index keys and the store accepts what is left, and it is then the store's filter for that dict |
| Qdrant.FalsyFilter | backend/app/services/vector_db/qdrant_client.py:61-62 | None and {} give no filter |
| Qdrant.TextKeysIgnored | backend/app/services/vector_db/qdrant_client.py:66-72 | the text-index keys have no effect on the result |
| Qdrant.OnlyTextKeys | backend/app/services/vector_db/qdrant_client.py:66-72 | a dict holding only text-index keys gives no filter |
| Qdrant.NoStoreKey | backend/app/services/vector_db/qdrant_client.py:76-84 | a dict with no store key gives no filter, whatever else it holds |
| Qdrant.RejectedFilter | backend/app/services/vector_db/qdrant_client.py:77-81 | a dict the store's Filter rejects gives no filter |
| VectorIngest.VectorShape | backend/app/services/vector_db/ingest.py:43-53 | the shape fails for a zero size and for a count it does not divide; otherwise it is (n, size) with n times size equal to the element count |
| VectorIngest.VectorShapeRoundTrip | backend/app/services/vector_db/ingest.py:43-53 | `count` vectors of a positive size make a file whose shape reads back as (count, size) |
| VectorIngest.TotalBatchesCeiling | backend/app/services/vector_db/ingest.py:123 | the batch count is the ceiling of n over the batch size: enough batches for every vector and none to spare |
| VectorIngest.AllPoints | backend/app/services/vector_db/ingest.py:118-147 | point i carries id i and the i-th vector, for every vector |
| VectorIngest.BatchStartInRange | backend/app/services/vector_db/ingest.py:128-130 | every batch the loop runs starts inside the vectors |
| VectorIngest.CoveredStep | backend/app/services/vector_db/ingest.py:129-130 | each batch starts where the previous ones end |
| VectorIngest.UpsertsPrefix | backend/app/services/vector_db/ingest.py:128-153 | the first k batches upload exactly the points with ids below min(k times batch size, n), in id order |
| VectorIngest.BatchIsSlice | backend/app/services/vector_db/ingest.py:129-147 | a batch is the slice [start, min(start + batch size, n)) of all the points |
| VectorIngest.AllBatchesCover | backend/app/services/vector_db/ingest.py:118-153 | the batches together upload every vector exactly once, with ids 0..n-1 in order |
| VectorIngest.FullBatches | backend/app/services/vector_db/ingest.py:129-134 | every batch but the last holds exactly batch-size points |
| VectorIngest.IngestUsesIndexSize | backend/app/services/vector_db/ingest.py:83-115 | a new collection is created with the index's own dimension whatever size was asked for, and every vector is uploaded once |
| VectorIngest.UploadBatches | backend/app/services/vector_db/ingest.py:123-153 | the batch loop issues exactly the specified sequence of upserts |
| VectorIngest.IngestCollection | backend/app/services/vector_db/ingest.py:56-157 | `ingest_collection` issues exactly the specified calls: a creation when the collection is not listed or the listing fails, then the upserts |
| VectorIngest.FirstFit | backend/app/services/vector_db/ingest.py:232-238 | a size found is one of the listed sizes and fits the element count |
| VectorIngest.FirstFitFacts | backend/app/services/vector_db/ingest.py:232-238 | the size found is the first listed one that fits, and none is found exactly when none fits |
| VectorIngest.FallbackDetection | backend/app/services/vector_db/ingest.py:227-241 | the fallback picks the first common size that divides the file into 1 to 9,999,999 vectors, and raises exactly when none does |
| VectorIngest.DetectVectorSize | backend/app/services/vector_db/ingest.py:216-241 | the detection loop returns the specified size: the setting, else the index dimension, else the first fitting common size, else an error |
| ObjectFilter.FilterPassThrough | backend/app/services/method/object_filter.py:39-76 | no selected objects, no ids or a failing search return the ids unchanged |
| ObjectFilter.FilterSubset | backend/app/services/method/object_filter.py:51-71 | as the search is restricted to the given ids, every id returned is one of them |
| QueryAugmentation.SettingsAttr | backend/app/core/config.py:10-59 | reading a setting succeeds only for the declared `GEMINI_API_KEY`; any other Gemini name raises an attribute error |
| QueryAugmentation.AsWrittenAlwaysRaises | backend/app/services/gemini/query_augmentation.py:14-16 | the constructor as written raises an attribute error for every configuration |
| QueryAugmentation.NewAugmentor | backend/app/services/gemini/query_augmentation.py:14-19 | construction raises `ValueError` exactly when no key is configured, and otherwise uses `gemini-2.0-flash-lite` |
| QueryAugmentation.UnfencedPlain | backend/app/services/gemini/query_augmentation.py:58 | a reply that does not start with a fence is parsed as it is |
| QueryAugmentation.UnfencedBlock | backend/app/services/gemini/query_augmentation.py:58-62 | a fenced reply is cut to the text between the first two fences, a leading `json` dropped, then stripped |
| QueryAugmentation.ClosingFence | backend/app/services/gemini/query_augmentation.py:59 | the closing fence of a backtick-free body is the first fence after the opening one |
| QueryAugmentation.FindFromFirst | backend/app/services/gemini/query_augmentation.py:59 | a search for a substring returns its first occurrence at or after the start |
| QueryAugmentation.FieldSpec | backend/app/services/gemini/query_augmentation.py:65-66 | a missing `q1`/`q2` falls back to the stripped original, a string value is stripped, any other value fails |
| QueryAugmentation.BlankQuery | backend/app/services/gemini/query_augmentation.py:33-35 | an empty or blank query comes back twice, whatever the model would say |
| QueryAugmentation.FailureFallback | backend/app/services/gemini/query_augmentation.py:50-80 | a failing model call, an unparsable reply or a reply of the wrong shape gives the original query twice |
| QueryAugmentation.ReplyQueries | backend/app/services/gemini/query_augmentation.py:55-72 | otherwise the two queries are the reply's stripped `q1` and `q2`, each defaulting to the stripped original |
| QueryAugmentation.AugmentedShape | backend/app/services/gemini/query_augmentation.py:27-80 | the result is either the original query twice or two stripped queries |

## Left out

- HTTP and FastAPI plumbing: the status code of each error the two endpoints raise is modelled. For a 500, only the constant prefix of the detail is modelled (`Augmented.SearchErrorDetail`, `Multistage.ServerErrorDetail`). The exception text that the source appends to it (`search_augmented.py:407`, `search_multistage.py:435`) is not modelled, because the exception is the unit value `Raised`. `backend/app/routers/search.py` and the other routers are not part of this model.
- Concurrency: `asyncio` fan-out, thread pools and the two keyframe worker threads run here one after the other in argument order. The lock in `URLManager` is left out because calls are sequential.
- Services that live outside the core are parameters. A search that can raise returns a `Result`. The per-query transcript searches `search_asr` and `search_ocr` catch their own errors and return `[]`, so they return plain lists. The constructor behind `get_asr_ocr_search()` raises when Elasticsearch cannot be reached (`asr_ocr.py:59-65`). That is the `Failure` in `Services.asrOcr`, and it is one outcome per request: the model does not cover reachability changing between the ASR call and the OCR call of one request, or the singleton being retried on a later request. These services are the embedding clients, the Qdrant SDK and `QdrantClient.search`, the Elasticsearch, caption and transcript adapters, the Gemini SDK, `GoogleTranslator`, faiss, PyAV and torch. `QdrantClient.__init__`, `_connect` and the `client` property only open a connection, so they are not modelled.
- `get_multimodel_search`, `get_translator` and `get_query_augmentor` are lazily created module-level singletons. The model constructs the instance it needs.
- `ObjectFilterSearch.__init__` only connects to Elasticsearch. `filter` is modelled with the index search as a parameter, and the order of the ids it returns is whatever that search gives.
- `QueryAugmentor._get_client`, `APIKeyManager` and the prompt text are calls into code outside this model. They are not modelled, and the model call is a parameter.
- `load_mapping_kf` reads a file. The mapping it would return is a parameter, and the file and JSON errors that give `{}` are covered by passing an empty mapping.
- File and directory I/O are left out: `load_bin_file`, `load_faiss_index`, globbing, `load_done_ids`, `NDJSONWriter`, `append_error_ids`, the `.env` read and `splitlines` reads. A file is given as its decoded contents or its lines.
- `load_index_pairs` in `ocr.py` is not modelled. It resolves paths, and its sort of mixed int and string ids raises `TypeError` in Python 3.
- The `Config` dataclass of `ocr.py` is not modelled, because line 56 is corrupted. Only the image folder it names is used.
- Retry loops, sleeps, pacing, progress bars, logging and printing are left out. This covers the Qdrant connection retries in `vector_db/ingest.py` `main`, the retry loop of `ocr.py` `main` with its `is_rate_limit_error` and `is_authz_error`, and the pauses of `key_health_check.py`.
- `build_contents_for_batch` and `extract_resp_text` in `ocr.py` only build the model request and read its reply, so they are not modelled.
- `json.loads` is a partial-function parameter. `str()` of floats and containers is the parameter `repr`.
- Float arithmetic: scores and weights are exact reals, and float32 rounding is not modelled. `np.std`, the logistic function, `np.percentile` and the keyframe similarity are parameters.
- `ScoreScaler` is not defined in `scale.py`. `ScoreScaler.min_max_scale` and `ScoreScaler.z_score_normalize` are taken to be the module functions of the same names, and `bm25_scale` is a length-preserving parameter.
- Case conversion is ASCII only: `Text.Lower`, `Text.Upper` and `re.I` matching outside ASCII are not modelled. Vietnamese detection names both cases of each letter explicitly.
- The iteration order of the `enabled_methods` set in `search_augmented.py` is fixed to multimodal, ic, asr, ocr.
- `sorted(contributing_stages)` in `aggregate_by_id` is not applied, because the stage list is already ascending (`Temporal.StageListOrdered`).
- Filter values other than booleans and lists in the endpoints' object filters are not modelled.
- Keyframes: natural sorting of file names is a given order. Frame decoding and embedding are parameters, and the faiss write at the end is left out.
- Elasticsearch ingest: a loaded file that is not a JSON object, the host and port defaults and the `tqdm` bars are not modelled.
- UniqueObjects.LoadUniqueObjects: the file is given as its decoded (key, value) pairs. `json.load` keeps only the last value of a duplicated key, and the model assumes the pairs it is given already have distinct keys. The same holds for the loaded files of `EsIngest`. A top-level value that is not an object, for which `data.values()` raises at `tmp.py:13`, is not modelled.
- Text.PyInt: accepts the ASCII digits 0-9 only. Python's `int()` also accepts other Unicode decimal digits, such as Arabic-Indic ones, and these are not modelled.
- KeyHealthCheck.PingKey: `build_client(api_key)` at `key_health_check.py:70` runs outside the `try`. An error raised by the client constructor would propagate out of `ping_key`, and that is not modelled: the model only covers the outcome of the ping request itself.
- OcrKeyRotator.StickyKeyRotator: time is the parameter `now`, and its console messages are left out.
- VectorIngest.UploadBatches: requires a positive batch size. With 0, the source fails on a division by zero, and that failure is not modelled.
- VectorIngest.IngestCollection: requires a positive batch size, for the same reason.
- Temporal.AggregateById: every hit carries a score, while the source reads `.get("score", 0.0)` (`temporal_aggregation.py:94`). Every producer in this system sets `score` (`qdrant_client.py:115`, `asr_ocr.py:118`, `ic_search.py:110`, and each fusion's `item["score"] = ...`). The searches then read `r["score"]`, which would raise first. So a hit without a score never reaches this code, and the 0.0 default is not modelled.
- Temporal.TotalsOfFacts: the per-id totals are over scores every hit carries. The 0.0 default for a missing score is not modelled, for the reason given for `Temporal.AggregateById`.
- Temporal.PerStageOfFacts: the per-stage scores are those hits carry. The missing-score default is not modelled, as for `Temporal.AggregateById`.
- Temporal.AddStage: adds the hit's own score. The missing-score default is not modelled, as for `Temporal.AggregateById`.
- Temporal.OccurrencesTotal: sums the scores hits carry. The missing-score default is not modelled, as for `Temporal.AggregateById`.
- Temporal.StageScoreMapDistinct: is about the scores hits carry. The missing-score default is not modelled, as for `Temporal.AggregateById`.
- Temporal.AggregationFacts: is about the scores hits carry. The missing-score default is not modelled, as for `Temporal.AggregateById`.
- TemporalTuples.FindTemporalTuples: every hit carries a score, while the source reads `.get("score", 0.0)` (`temporal_aggregation.py:208`). The default is not modelled, for the reason given for `Temporal.AggregateById`.
- TemporalTuples.MakeTupleFacts: the tuple score sums the scores its hits carry. The missing-score default is not modelled, as for `TemporalTuples.FindTemporalTuples`.
- TemporalTuples.AllTuplesFacts: is about the scores hits carry. The missing-score default is not modelled, as for `TemporalTuples.FindTemporalTuples`.
- TemporalTuples.TupleResultFacts: is about the scores hits carry. The missing-score default is not modelled, as for `TemporalTuples.FindTemporalTuples`.
- Scale.ScaleSearchResults: every hit carries a score, while the source reads `.get("score", 0.0)` (`scale.py:163`). The default is not modelled, for the reason given for `Temporal.AggregateById`.
- Ocr.SliceKeysByRange: does not model the source's early exit for an empty slice, because that exit can never be reached after the range is clamped.

## Findings

| source | as written | input that shows it | evidently intended | confidence | as-written member | corrected member |
|---|---|---|---|---|---|---|
| backend/app/services/gemini/query_augmentation.py:15 | the constructor reads `settings.GEMINI_API_KEYS`, which the settings class does not declare and which therefore raises `AttributeError`; every request to the augmented endpoint, and every multi-stage request with stages, then fails with HTTP 500 | any configuration, e.g. `GEMINI_API_KEY` set to a valid key | read the declared `GEMINI_API_KEY` and raise `ValueError` only when it is unset or empty | not executed | QueryAugmentation.NewAugmentorAsWritten (shown by QueryAugmentation.AsWrittenAlwaysRaises, Multistage.AsWrittenEndpointFails, Augmented.AsWrittenEndpointFails) | QueryAugmentation.NewAugmentor |
