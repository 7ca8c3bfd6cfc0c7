# MacJarvis core logic in Dafny

This project models the sequential logic of MacJarvis, a macOS voice and chat assistant whose backend streams replies from a language model, calls local tools and keeps a long-term memory of each user. The model is written in Dafny and its properties are proved.

The model covers these parts:

- **Speech segmenter.** Streamed reply text is cut into segments for speech synthesis (`tts.dfy`).
- **Stores.** The in-memory cache with expiry (`cache.dfy`), the LRU pool of LLM clients and the per-user session store of the chat server (`server.dfy`, `server_paths.dfy`), the short-term conversation window and recall ranking (`memory_store.dfy`), and the agent's memory facade (`agent_memory.dfy`).
- **Long-term memory.** The tables and upsert rules (`memory_service.dfy`), the periodic consolidation (`memory_consolidator.dfy`), the extraction reply parser (`memory_extractor.dfy`) and the prompt and display text (`memory_integration.dfy`).
- **Agent loop.** Three copies of it, covering tool-call fragment merging and the turn limit (`agent_loop.dfy`), plus the chat pipeline (`chat_service.dfy`), the system prompts (`system_prompts.dfy`) and the tool registry (`registry.dfy`).
- **Validation and infrastructure.** Input validation and rate limiting (`security.dfy`), log filtering and handlers (`logging.dfy`), request metrics (`metrics.dfy`), error responses (`error_handler.dfy`), LLM retries (`retry_policy.dfy`), and the SQLite write retry and message queries (`repositories.dfy`).
- **Tools.** The checks and text handling of the tools: shell screening (`shell.dfy`), file tools (`file_tools.dfy`), grep (`grep.dfy`), document summaries (`summary.dfy`), data statistics (`data_stats.dfy`), developer scripts (`scripts.dfy`), command resolution (`command_paths.dfy`, `command_runner.dfy`), tool names (`tool_catalog.dfy`) and path checks (`validators.dfy`).
- **Services and settings.** The upload, session and user services (`file_service.dfy`, `session_service.dfy`, `user_service.dfy`), settings (`config.dfy`) and the machine identifier (`machine_id.dfy`).

Shared modules model the Python behaviour the code relies on:

- `py.dfy`: `str` methods, `int()` and `str()`, and slicing;
- `json.dfy`: JSON-like values;
- `paths.dfy`: POSIX paths as components;
- `sorting.dfy`: stable descending `sorted`;
- `glob.dfy`: the `*`/`?` subset of `fnmatch`;
- `seqs.dfy` and `comprehension.dfy`: sequence helpers;
- `wrappers.dfy`: Option and Result.

Each part modelled takes the form its code has:

- Objects whose methods update their fields are classes with `modifies` clauses. Examples are the segmenter, the client pool, the session store, the rate limiter, the metrics collector, the log handlers, the memory manager, the consolidator, the session service, the user path service and the machine-id store.
- Loops are methods with invariants, proved against specification functions.
- Pure code is functions and lemmas.

Several external inputs are parameters of the model:

- I/O, subprocesses, the clock, `uuid4()`, `random.random()`, `json.loads`, path resolution and the model's replies;
- the file system, the database and the cache, which are maps and sequences.

The segmenter's cut rule decides how short sentences group. `_find_natural_break` (backend/app/services/tts_service.py:92-116) accepts a sentence end only when its match ends at or after `min_length`. Under the default lengths (10, 200 and 50), the text "这是第一句话。这是第二句话，内容稍长一些。" therefore streams as a single segment. Its first `。` ends at position 7, below the minimum, so the only cut is the final `。`. `TtsService.TwoSentencesOneSegment` proves this.

Code that is the same in several files is modelled once, with one row for each copy in the table below.

## Model

| member | source | states |
|---|---|---|
| TtsService.NaturalCutUpTo | backend/app/services/tts_service.py:98-109 | after scanning the first `n` positions the best cut is absent exactly when no sentence end at or after `min_length` was seen, and otherwise is such a cut no worse than any other seen (nearer to `prefer_length`, earlier on ties) |
| TtsService.NaturalCutStep | backend/app/services/tts_service.py:101-108 | one loop step: the new match end replaces the best so far only when it qualifies and is strictly nearer |
| TtsService.NaturalCut | backend/app/services/tts_service.py:92-116 | the natural break is absent iff no sentence end at or after `min_length` exists; when present it is one, and it is at least as near to `prefer_length` as every other, the earliest on ties |
| TtsService.LastSecondary | backend/app/services/tts_service.py:126-130 | the end of the last `，、,` among the first `n` characters: no later secondary delimiter exists, 0 when there is none |
| TtsService.ForceCut | backend/app/services/tts_service.py:126-133 | the forced cut lies in 1..`max_length`; it follows the last secondary delimiter inside the first `max_length` characters, or is exactly `max_length` when there is none |
| TtsService.CutKeepsText | backend/app/services/tts_service.py:112-113 | cutting at any position and stripping both halves loses only whitespace |
| TtsService.Extract | backend/app/services/tts_service.py:65-82 | nothing is extracted iff the buffer is empty, or fits `max_length` and is shorter than `min_length` or has no natural break; an extraction strictly shortens the buffer and emits at most `max_length` characters |
| TtsService.NaturalSegmentNonEmpty | backend/app/services/tts_service.py:110-114 | a natural-break segment keeps its punctuation mark, so it is never empty |
| TtsService.ShortBufferWaits | backend/app/services/tts_service.py:73-74 | a buffer within `max_length` but shorter than `min_length` yields nothing |
| TtsService.ExtractKeepsText | backend/app/services/tts_service.py:112-136 | the non-whitespace text of segment plus kept buffer equals that of the old buffer |
| TtsService.ExtractAll | backend/app/services/tts_service.py:50-56 | the repeated extraction terminates; every segment and the buffer left are at most `max_length` long |
| TtsService.ExtractAllUnfold | backend/app/services/tts_service.py:50-54 | the loop stops on the first empty extraction and otherwise puts the extracted segment before the rest, in extraction order |
| TtsService.ExtractAllKeepsText | backend/app/services/tts_service.py:47-56 | repeated extraction loses only whitespace |
| TtsService.Feed | backend/app/services/tts_service.py:174-177 | after any sequence of chunks, every segment and the buffer are at most `max_length` long |
| TtsService.StreamSegmentsBounded | backend/app/services/tts_service.py:172-182 | no segment of the stream, the flushed remainder included, is longer than `max_length` |
| TtsService.FeedKeepsText | backend/app/services/tts_service.py:174-177 | the segments so far and the buffer hold exactly the non-whitespace text of the chunks fed |
| TtsService.StreamKeepsText | backend/app/services/tts_service.py:172-182 | the stream's segments hold exactly the non-whitespace text of its input, in order |
| TtsService.TextSegmenter.constructor | backend/app/services/tts_service.py:18-35 | the segmenter starts with the given limits and an empty buffer |
| TtsService.TextSegmenter.AddText | backend/app/services/tts_service.py:37-56 | the segments returned and the new buffer are those of `ExtractAll` on the old buffer plus the chunk |
| TtsService.TextSegmenter.ExtractSegment | backend/app/services/tts_service.py:58-82 | returns and keeps exactly what `Extract` specifies; the buffer is unchanged when nothing is extracted |
| TtsService.TextSegmenter.FindNaturalBreak | backend/app/services/tts_service.py:84-116 | the loop over match ends finds `NaturalCut`; without one the buffer is unchanged, with one the stripped prefix is returned and the stripped rest kept |
| TtsService.TextSegmenter.ForceSplit | backend/app/services/tts_service.py:118-137 | segment and new buffer are the stripped halves at `ForceCut` |
| TtsService.TextSegmenter.Flush | backend/app/services/tts_service.py:139-151 | returns None for an empty buffer, otherwise the stripped buffer, and always leaves the buffer empty |
| TtsService.SegmentTextStream | backend/app/services/tts_service.py:154-182 | yields every `add_text` segment in order, then the flushed remainder only when non-empty |
| TtsService.TwoSentencesCut | backend/app/services/tts_service.py:92-116 | under the default lengths, the only natural cut of "这是第一句话。这是第二句话，内容稍长一些。" is its end: the first `。` ends at 7, below the minimum of 10 |
| TtsService.WholeBufferExtracted | backend/app/services/tts_service.py:37-56 | a stripped buffer within `max_length` whose only natural cut is its end is extracted whole, leaving an empty buffer |
| TtsService.WholeChunkOneSegment | backend/app/services/tts_service.py:154-182 | a chunk of that kind, streamed alone, comes out as exactly one segment, itself, with nothing left to flush |
| TtsService.TwoSentencesOneSegment | backend/app/services/tts_service.py:154-182 | under the default lengths (10, 200, 50), that two-sentence text streams as exactly one segment |
| CacheManager.Read | backend/app/infrastructure/cache/cache_manager.py:55-63 | a read finds a value exactly when the key is stored and its expiry time has not been reached, and then returns the stored value |
| CacheManager.AfterRead | backend/app/infrastructure/cache/cache_manager.py:58-61 | a read removes the key when, and only when, it found the entry expired; otherwise nothing changes |
| CacheManager.EffectiveTtl | backend/app/infrastructure/cache/cache_manager.py:133 | `ttl or self.default_ttl`: a truthy ttl is kept, otherwise the default is used |
| CacheManager.ReadAfterWrite | backend/app/infrastructure/cache/cache_manager.py:55-68 | a value written with a ttl is read back until the ttl runs out (forever for no ttl); other keys read as before |
| CacheManager.IncrementTwice | backend/app/infrastructure/cache/cache_manager.py:222-232 | two increments add up: the counter written by the first is incremented by the second's amount |
| CacheManager.CountParsed | backend/app/infrastructure/cache/cache_manager.py:225-228 | a stored integer text is parsed and the amount added |
| CacheManager.CountRejected | backend/app/infrastructure/cache/cache_manager.py:227-230 | a stored text that is not an integer literal of ASCII digits makes `increment` fail (non-ASCII decimal digits, which `int()` reads, are refused too; see "## Left out") |
| CacheManager.IncrementRejectsText | backend/app/infrastructure/cache/cache_manager.py:222-230 | incrementing a live value without any ASCII digit returns None (a value of other Unicode decimal digits too, unlike the source; see "## Left out") |
| CacheManager.UserSessionsPatternMatches | backend/app/infrastructure/cache/cache_manager.py:405-438 | the invalidation pattern matches exactly the keys starting with `session:<user>:`, in particular every session key of that user |
| CacheManager.Written | backend/app/infrastructure/cache/cache_manager.py:270-271 | the entries `set_many` writes: exactly the mapping's keys, each with its value and the common expiry |
| CacheManager.MemoryCache.constructor | backend/app/infrastructure/cache/cache_manager.py:20-30 | the cache starts empty with the given default ttl |
| CacheManager.MemoryCache.GetMemory | backend/app/infrastructure/cache/cache_manager.py:55-63 | returns `Read` and leaves the store as `AfterRead` (an expired entry is dropped) |
| CacheManager.MemoryCache.SetMemory | backend/app/infrastructure/cache/cache_manager.py:65-68 | always succeeds; the key maps to the value with expiry now+ttl, or none for a falsy ttl |
| CacheManager.MemoryCache.DeleteMemory | backend/app/infrastructure/cache/cache_manager.py:70-71 | reports whether the key was stored; the key is gone afterwards and nothing else changes |
| CacheManager.MemoryCache.ExistsMemory | backend/app/infrastructure/cache/cache_manager.py:73-74 | true exactly for a live key; an expired one is dropped |
| CacheManager.MemoryCache.ExpireMemory | backend/app/infrastructure/cache/cache_manager.py:76-81 | a live key keeps its value with expiry now+ttl and true is returned; otherwise false, as after a read |
| CacheManager.MemoryCache.Get | backend/app/infrastructure/cache/cache_manager.py:83-99 | a live non-empty value is returned; an empty string counts as a miss |
| CacheManager.MemoryCache.Set | backend/app/infrastructure/cache/cache_manager.py:111-144 | writes the value with `ttl or default_ttl` and reports success |
| CacheManager.MemoryCache.Delete | backend/app/infrastructure/cache/cache_manager.py:149-164 | reports whether the key was stored and removes it |
| CacheManager.MemoryCache.Exists | backend/app/infrastructure/cache/cache_manager.py:173-185 | true exactly for a live key |
| CacheManager.MemoryCache.Expire | backend/app/infrastructure/cache/cache_manager.py:191-204 | as `_expire_memory` |
| CacheManager.MemoryCache.Increment | backend/app/infrastructure/cache/cache_manager.py:210-232 | returns the value plus the amount (amount alone for a missing key) and stores it as text without expiry; a non-integer value returns None and leaves the store as after a read |
| CacheManager.MemoryCache.GetMany | backend/app/infrastructure/cache/cache_manager.py:238-250 | one answer per requested key, each `Read` of the old store; only requested expired keys are dropped |
| CacheManager.MemoryCache.SetMany | backend/app/infrastructure/cache/cache_manager.py:257-272 | every pair of the mapping is written with `ttl or default_ttl`; other keys are kept |
| CacheManager.MemoryCache.DeletePattern | backend/app/infrastructure/cache/cache_manager.py:283-302 | deletes exactly the keys the glob pattern matches and returns how many |
| CacheManager.MemoryCache.InvalidateUserSessions | backend/app/infrastructure/cache/cache_manager.py:435-438 | deletes exactly the keys matching `session:<user>:*` |
| CacheManager.MemoryCache.GetDecoded | backend/app/infrastructure/cache/cache_manager.py:409-421 | a truthy cached value is decoded; one that does not decode is deleted and None returned; a miss returns None |
| CacheManager.MemoryCache.SetUserPaths | backend/app/infrastructure/cache/cache_manager.py:460-469 | the encoded paths are stored under `user_paths:<user>` with `ttl or 3600` |
| ServerApp.CreateSessionTitle | backend/server/app.py:197-201 | the title is the stripped content, cut to 24 characters plus "..." when longer, with the default title for blank content; backend/app/services/session_service.py:396-409 follows the same rule |
| ServerApp.TitleShape | backend/server/app.py:197-201 | a title is never blank, is at most 27 characters, has no surrounding whitespace, and is its own title; backend/app/services/session_service.py:396-409 follows the same rule |
| ServerApp.TitleStripped | backend/server/app.py:198-201 | a title is non-empty and stripped, and either at most 24 characters or exactly 27 ending in "..." |
| ServerApp.Truncated | backend/server/app.py:201 | a title cut from a longer text keeps its first character and ends in "..." |
| ServerApp.TitleOfTitle | backend/server/app.py:197-201 | a stripped, non-blank text of at most 27 characters is left as it is |
| ServerApp.ToolStatus | backend/server/app.py:1056 | a tool call is "failed" exactly when its result is a dict whose `ok` is the boolean false, "completed" otherwise |
| ServerApp.ToolStatusExamples | backend/server/app.py:1056 | a dict without `ok`, an `ok` of 0 or null, and a non-dict result all complete; only `ok: False` fails |
| ServerApp.KeyFields | backend/server/app.py:167-169 | the key splits on a bar character back into base URL, model and the two proxies (missing taken as "") when no field holds a bar character |
| ServerApp.KeyInjective | backend/server/app.py:167-169 | two configurations without a bar character in their fields share a key only when they agree on every field |
| ServerApp.NoProxySharesKey | backend/server/app.py:169 | a missing proxy and an empty proxy give the same key |
| ServerApp.AppendFresh | backend/server/app.py:150-164 | appending a key that is not listed keeps the access order free of duplicates |
| ServerApp.EvictFront | backend/server/app.py:155-158 | dropping the first key of the access order removes exactly that key from the pool and shrinks it by one |
| ServerApp.ClientPool.constructor | backend/server/app.py:132-136 | a new pool is empty, with an empty access order and the given capacity |
| ServerApp.ClientPool.GetClient | backend/server/app.py:138-165 | a hit returns the pooled client and moves its key last; a miss at capacity evicts the first key, then pools and returns a new client; an empty access order at capacity raises; the pool invariant is kept |
| ServerApp.ClientPool.Clear | backend/server/app.py:171-176 | the pool and the access order are emptied |
| ServerApp.ClientPool.Stats | backend/server/app.py:178-185 | size, capacity and keys of the pool, with the size never above the capacity |
| ServerApp.Ids | backend/server/app.py:457-462 | the session ids, one per session, in order |
| ServerApp.FindSession | backend/server/app.py:458 | a session is found exactly when its id is one of the ids, and what is found is a session with that id |
| ServerApp.PutSession | backend/server/app.py:462 | an existing id keeps its place in the ids, a new id goes last, and the session is stored |
| ServerApp.FindPut | backend/server/app.py:462 | after storing a session its id finds it and every other id finds what it found before |
| ServerApp.GetOrCreateFacts | backend/server/app.py:447-453 | a known id is answered unchanged; another id, or a fresh one when none is given, gets an empty entry; no existing user changes |
| ServerApp.EnsureFacts | backend/server/app.py:456-464 | a known session id is answered with nothing changed; otherwise one new active session with no messages and the given or default title is added, and no other session changes |
| ServerApp.ListSessions | backend/server/app.py:467-470 | the listed sessions are a permutation of the user's sessions |
| ServerApp.MostRecentFirst | backend/server/app.py:467-470 | the first listed session is one of the user's and was updated no earlier than any other |
| ServerApp.MostRecentId | backend/server/app.py:791 | the first listed session's id is one of the session ids |
| ServerApp.InitSelectHasSession | backend/server/app.py:783-792 | the answered id always names one of the user's sessions afterwards |
| ServerApp.InitSelectCreatesFirst | backend/server/app.py:784-785 | a user without sessions gets exactly one new session, made active |
| ServerApp.InitSelectKnown | backend/server/app.py:787-788 | a known requested id, or with none requested a known active id, is answered with nothing changed |
| ServerApp.InitSelectUnknown | backend/server/app.py:787-789 | an unknown requested or active id is replaced by one new active session |
| ServerApp.InitSelectMostRecent | backend/server/app.py:787-792 | with neither id given, the most recently updated session is answered and made active |
| ServerApp.UserStore.constructor | backend/server/app.py:224 | the store starts without users |
| ServerApp.UserStore.GetOrCreateUser | backend/server/app.py:447-453 | the answered id and the new store are those of `GetOrCreate`, and the returned state is the user's entry |
| ServerApp.UserStore.EnsureSession | backend/server/app.py:456-464 | the answered id and the user's new state are those of `Ensure`, and no other user changes |
| ServerApp.UserStore.SelectSession | backend/server/app.py:786-792 | the answered id and the user's new state are those of `InitSelect` |
| ServerApp.UserStore.InitSession | backend/server/app.py:780-798 | the user id, the active id and the store follow `GetOrCreate` then `InitSelect`, and the sessions are listed most recent first |
| ServerPaths.Accept | src/server/app.py:124-135 | a raw entry contributes at most one path: its stripped text resolved, and only when the entry is not blank, resolves, is not "/" and is an existing directory |
| ServerPaths.CandidatesMembers | src/server/app.py:124-135 | a path is a candidate exactly when some raw entry is accepted as that path |
| ServerPaths.AcceptEntry | src/server/app.py:125-134 | the entry tests of the loop body skip a blank, unresolvable, root or non-directory entry and otherwise yield exactly the path the entry contributes |
| ServerPaths.NormalizeUserPaths | src/server/app.py:121-140 | the result is the accepted paths in input order, each kept at its first occurrence |
| ServerPaths.CandidatesSnoc | src/server/app.py:124-139 | reading one more raw entry appends what that entry contributes and nothing else |
| ServerPaths.NormalizedPaths | src/server/app.py:121-140 | the stored whitelist has no duplicates, holds exactly the accepted paths, and never holds "/" or a non-directory |
| ServerPaths.PathLines | src/server/app.py:93 | one "- path" line per path, in order |
| ServerPaths.BuildSystemPrompt | src/server/app.py:89-95 | the prompt has no surrounding whitespace |
| ServerPaths.PathsTextLines | src/server/app.py:92-94 | with paths that hold no line break, the paragraph splits into the heading and one line per path |
| ServerPaths.PromptShape | src/server/app.py:89-95 | with a stripped base prompt and paths ending in a visible character, the prompt is the base, a blank line and the paragraph, with nothing stripped away |
| ServerPaths.ParagraphEnd | src/server/app.py:90-94 | the paragraph ends in a visible character: the last path's, or the full stop of the no-paths notice |
| MemoryStore.TermsScorePositive | backend/app/core/memory/store.py:27 | with non-empty terms, the summed count is positive exactly when some term occurs in the text |
| MemoryStore.ScoreText | backend/app/core/memory/store.py:22-27 | a text scores above 0 exactly when one of the lowercased query's terms occurs in the lowercased text; a blank query scores 0 |
| MemoryStore.WindowFacts | backend/app/core/memory/store.py:48-49 | the kept messages are a suffix of the list, exactly `min(window_size, len)` of them for a window of at least one, and all of them for a window of 0 |
| MemoryStore.ShortTermMemory.constructor | backend/app/core/memory/store.py:31-35 | a new store keeps the window size and TTL and holds no sessions |
| MemoryStore.ShortTermMemory.Prune | backend/app/core/memory/store.py:37-42 | exactly the sessions idle for more than the TTL are dropped from both maps, and the two maps keep the same sessions |
| MemoryStore.ShortTermMemory.AddMessage | backend/app/core/memory/store.py:44-50 | after pruning, the message is appended to the session, the session is cut to its window and stamped with the current time |
| MemoryStore.ShortTermMemory.GetContext | backend/app/core/memory/store.py:52-54 | after pruning, the session's messages are returned, nothing for an unknown session; the store is only pruned |
| MemoryStore.ShortTermMemory.Clear | backend/app/core/memory/store.py:56-58 | the session is dropped from both maps and nothing else changes |
| MemoryStore.AddedWindow | backend/app/core/memory/store.py:46-49 | with a window of at least one, a session just written holds between one and `window_size` messages, the new one last |
| MemoryStore.ScoreRows | backend/app/core/memory/store.py:127-132 | each fetched row is paired with its score over summary and content, in row order |
| MemoryStore.Recall | backend/app/core/memory/store.py:127-148 | the result is the rows ranked by score and creation time, highest first, cut to `limit` |
| MemoryStore.RankedFacts | backend/app/core/memory/store.py:134-136 | at most `limit` rows and never more than fetched, in descending (score, created_at) order, each one a fetched row with its own score |
| AgentMemory.EpisodeLabel | backend/agent/memory/manager.py:38 | an episode is shown by its summary when that is present and non-empty, and by its type otherwise |
| AgentMemory.KnowledgeLines | backend/agent/memory/manager.py:33 | one "- content" line per knowledge item, in order |
| AgentMemory.EpisodeLines | backend/agent/memory/manager.py:37-39 | one "- label" line per recalled episode, in order |
| AgentMemory.RecentLines | backend/agent/memory/manager.py:43 | one "role: content" line per recent message, in order |
| AgentMemory.Sections | backend/agent/memory/manager.py:31-44 | one section per non-empty source, each opening with its heading, in the order knowledge, history, current conversation |
| AgentMemory.SectionRanks | backend/agent/memory/manager.py:34-44 | each section opens with its own heading and with no other |
| AgentMemory.CapKeepsPrefix | backend/agent/memory/manager.py:47-48 | the length cap keeps every prefix of the text that fits within it |
| AgentMemory.ContextEmpty | backend/agent/memory/manager.py:46-48 | with nothing known, recalled or said the context is empty, except that a negative cap still appends "..." |
| AgentMemory.ContextBound | backend/agent/memory/manager.py:46-49 | a context is at most `context_max_chars + 3` long; a body within the cap is returned unchanged, a longer one is cut and ends in "..." |
| AgentMemory.BodyOpensWithHeading | backend/agent/memory/manager.py:31-46 | the assembled body opens with the heading of the first non-empty source |
| AgentMemory.ContextOpensWithHeading | backend/agent/memory/manager.py:31-49 | unless the cap is shorter than a heading, the context opens with the heading of the first non-empty source |
| AgentMemory.MemoryManager.constructor | backend/agent/memory/manager.py:11-21 | the manager keeps the given short-term store and context cap |
| AgentMemory.MemoryManager.RecordMessage | backend/agent/memory/manager.py:23-24 | the short-term store is pruned and then gains exactly the `{role, content}` message at the end of the session's window, stamped with the current time |
| AgentMemory.MemoryManager.BuildContext | backend/agent/memory/manager.py:26-49 | the context is built from the session's messages left after pruning and from the recalled episodes and knowledge; the store is only pruned |
| AgentMemory.CollectSections | backend/agent/memory/manager.py:31-44 | the appending steps build exactly the specified sections |
| MemoryService.ClampProgress | backend/app/services/memory_manager.py:250-252 | progress is clamped into [0, 100]: kept when inside, 0 below and 100 above |
| MemoryService.PutPreference | backend/app/services/memory_manager.py:62-99 | the key is stored afterwards and every other preference is unchanged |
| MemoryService.PreferenceGate | backend/app/services/memory_manager.py:66-82 | a weaker preference leaves the table as it was; an equal or stronger one takes over value, confidence and source; a stored confidence never drops |
| MemoryService.PreferenceWeakerIgnored | backend/app/services/memory_manager.py:68-82 | once a preference is stored, a later, less confident one for the same key is ignored |
| MemoryService.PutFact | backend/app/services/memory_manager.py:168-205 | the key is stored afterwards and every other fact is unchanged |
| MemoryService.FactLatestValue | backend/app/services/memory_manager.py:172-188 | the stored value is always the one just given and the stored confidence is the larger of the two; a same-valued, weaker fact changes nothing |
| MemoryService.NewRelationRaises | backend/app/services/memory_manager.py:454-476 | as written, every relation not yet stored fails with `NameError` on the undefined `metadata` |
| MemoryService.PutRelation | backend/app/services/memory_manager.py:437-471 | the key is stored afterwards and every other relation is unchanged |
| MemoryService.RelationRules | backend/app/services/memory_manager.py:443-471 | a new relation is stored with the given fields; an existing one keeps its types and direction and changes only on a strictly higher confidence, which it then takes |
| MemoryService.SimilarRaisesOnSecondTask | backend/app/services/memory_manager.py:369-383 | as written, once a user has two tasks with a title every later lookup for that title raises `MultipleResultsFound` |
| MemoryService.Similar | backend/app/services/memory_manager.py:369-383 | no match exactly when the user has no task with the title; otherwise the newest such task |
| MemoryService.AddTaskTo | backend/app/services/memory_manager.py:287-316 | either the newest same-titled task is active and is returned with nothing inserted, or exactly one row is appended with the next id and progress clamped into [0, 100] |
| MemoryService.AddTaskKeepsIds | backend/app/services/memory_manager.py:287-316 | adding a task keeps the ids in insertion order, advancing the counter exactly when a row is appended |
| MemoryService.UpdateTaskRules | backend/app/services/memory_manager.py:346-358 | an explicit progress wins over the 100 of "completed" and is clamped; empty status and description are ignored; the memory task's identity never changes and it is stamped |
| MemoryService.FindTask | backend/app/services/memory_manager.py:333-344 | the memory task found has the id and belongs to the user; none is found exactly when no such task exists |
| MemoryService.FoldTasksStep | backend/app/services/memory_manager.py:577-587 | each item of the batch is one more `add_task` on the result of the earlier items |
| MemoryService.FoldPreferencesKeys | backend/app/services/memory_manager.py:551-561 | every key the batch touches, with the "general" and "unknown" defaults, is in the table afterwards, and no stored key is lost |
| MemoryService.FoldTasksKeepsIds | backend/app/services/memory_manager.py:577-587 | a batch of tasks keeps the ids ordered, appends at most one row per item and never removes or changes a row |
| MemoryService.MemoryManager.constructor | backend/app/services/memory_manager.py:24-35 | the manager starts with empty tables |
| MemoryService.MemoryManager.AddPreference | backend/app/services/memory_manager.py:37-104 | the preference table becomes `PutPreference` of the old one and the stored row is returned; no other table changes |
| MemoryService.MemoryManager.AddFact | backend/app/services/memory_manager.py:143-210 | the fact table becomes `PutFact` of the old one and the stored row is returned; no other table changes |
| MemoryService.MemoryManager.AddRelation | backend/app/services/memory_manager.py:408-476 | the relation table becomes `PutRelation` of the old one and the stored row is returned; no other table changes |
| MemoryService.MemoryManager.AddTask | backend/app/services/memory_manager.py:254-321 | the memory task rows and the returned task are those of `AddTaskTo`, the id counter advances by the rows appended, and no other table changes |
| MemoryService.MemoryManager.UpdateTask | backend/app/services/memory_manager.py:323-367 | nothing changes and nothing is returned unless the id names one of the user's tasks; that row alone is then rewritten and returned |
| MemoryService.MemoryManager.AddPreferenceItems | backend/app/services/memory_manager.py:550-561 | every preference item is added in order and counted once |
| MemoryService.MemoryManager.AddFactItems | backend/app/services/memory_manager.py:563-574 | every fact item is added in order and counted once |
| MemoryService.MemoryManager.AddTaskItems | backend/app/services/memory_manager.py:576-587 | every task item is added in order and counted once |
| MemoryService.MemoryManager.AddRelationItems | backend/app/services/memory_manager.py:589-601 | every relation item is added in order and counted once |
| MemoryService.MemoryManager.AddExtractedMemories | backend/app/services/memory_manager.py:526-604 | each kind's items are added in order with the session metadata and each count is the number of items of that kind |
| MemoryService.CountSimilar | backend/app/services/memory_manager.py:369-383 | no rows match exactly when no task of the user has the title |
| MemoryService.SimilarAsWritten | backend/app/services/memory_manager.py:369-383 | as written, the lookup raises exactly when two or more tasks of the user have the title, and otherwise finds the one the corrected lookup finds |
| MemoryService.AddRelationAsWritten | backend/app/services/memory_manager.py:408-476 | as written, storing a relation succeeds exactly when its key is already stored, and then updates that row in place as the corrected version does, with no new key |
| MemoryConsolidator.DecayRowFacts | backend/app/services/memory_consolidator.py:114-124 | decay lowers a selected row's confidence to no less than the threshold and stamps it, leaves an unselected or unchanged row as it was, and never touches id, user, category or key |
| MemoryConsolidator.Decay | backend/app/services/memory_consolidator.py:114-124 | each row of the table is replaced by its decayed form, in place |
| MemoryConsolidator.DecayCountChanged | backend/app/services/memory_consolidator.py:121-124 | the decayed counter is exactly the number of rows decay changed |
| MemoryConsolidator.DecayRows | backend/app/services/memory_consolidator.py:92-174 | the loop leaves the table decayed and returns the decayed counter |
| MemoryConsolidator.Removal | backend/app/services/memory_consolidator.py:186-195 | a row survives the delete exactly when it is not the user's with confidence below the threshold |
| MemoryConsolidator.RemovalCounts | backend/app/services/memory_consolidator.py:178-221 | the delete's row count is the user's number of low rows; afterwards the user has none, and every other user keeps theirs |
| MemoryConsolidator.DecayKeepsLow | backend/app/services/memory_consolidator.py:119 | decay never moves a row below the threshold, so every user's count of low rows is unchanged |
| MemoryConsolidator.RemovalUniqueIds | backend/app/services/memory_consolidator.py:186-217 | deleting rows keeps primary keys unique |
| MemoryConsolidator.DecayUniqueIds | backend/app/services/memory_consolidator.py:114-124 | decay keeps primary keys unique |
| MemoryConsolidator.MarkStale | backend/app/services/memory_consolidator.py:245-254 | each task row is replaced by its stale-handled form, in place |
| MemoryConsolidator.StaleRowFacts | backend/app/services/memory_consolidator.py:233-254 | a stale active task goes on hold when it has progress and is cancelled otherwise, and is stamped; no stale task is left active and no other task changes |
| MemoryConsolidator.StaleCountLeavesActive | backend/app/services/memory_consolidator.py:245-254 | the stale counter equals the drop in the user's number of active tasks |
| MemoryConsolidator.MarkStaleRows | backend/app/services/memory_consolidator.py:225-258 | the loop leaves the memory tasks marked and returns the stale counter |
| MemoryConsolidator.StrLeTotal | backend/app/services/memory_consolidator.py:276 | the text order of keys is total |
| MemoryConsolidator.StrLeAntisymmetric | backend/app/services/memory_consolidator.py:276 | the text order of keys is antisymmetric |
| MemoryConsolidator.StrLeTransitive | backend/app/services/memory_consolidator.py:276 | the text order of keys is transitive |
| MemoryConsolidator.RowBeforeTotal | backend/app/services/memory_consolidator.py:275-279 | the de-duplication query order is total |
| MemoryConsolidator.RowBeforeTransitive | backend/app/services/memory_consolidator.py:275-279 | the de-duplication query order is transitive |
| MemoryConsolidator.InsertRow | backend/app/services/memory_consolidator.py:275-279 | inserting a row adds exactly that row |
| MemoryConsolidator.InsertRowSorted | backend/app/services/memory_consolidator.py:275-279 | inserting into rows in query order keeps them in query order |
| MemoryConsolidator.SortRows | backend/app/services/memory_consolidator.py:272-281 | the ordered rows are a permutation of the rows |
| MemoryConsolidator.SortRowsSorted | backend/app/services/memory_consolidator.py:275-279 | the ordered rows are in query order: key, then confidence descending, then update time descending |
| MemoryConsolidator.UserRows | backend/app/services/memory_consolidator.py:272-274 | exactly the user's rows are fetched |
| MemoryConsolidator.DeletedCount | backend/app/services/memory_consolidator.py:283-291 | every walked row either opens a new (category, key) pair or is marked for deletion |
| MemoryConsolidator.DeletedIdsMembers | backend/app/services/memory_consolidator.py:286-291 | with unique ids a row is marked for deletion exactly when an earlier row has its pair, and every marked id is a walked row's |
| MemoryConsolidator.DeleteIds | backend/app/services/memory_consolidator.py:294-299 | a row survives exactly when its id is not marked |
| MemoryConsolidator.WalkDuplicates | backend/app/services/memory_consolidator.py:283-291 | the walk collects, in row order, the id of every row whose (category, key) pair an earlier row already had |
| MemoryConsolidator.DeletedIdsSnoc | backend/app/services/memory_consolidator.py:286-291 | walking one more row adds its pair to the seen pairs, and adds its id to the deletions exactly when the pair was seen before |
| MemoryConsolidator.DedupRows | backend/app/services/memory_consolidator.py:262-304 | the walk and the delete leave the table de-duplicated and return the number of duplicates removed |
| MemoryConsolidator.DeleteNothing | backend/app/services/memory_consolidator.py:294 | with nothing marked the table is unchanged |
| MemoryConsolidator.WalkRows | backend/app/services/memory_consolidator.py:272-281 | the walked rows are exactly the user's, in query order, with unique ids |
| MemoryConsolidator.DedupOnePerPair | backend/app/services/memory_consolidator.py:262-304 | afterwards the user has at most one preference per (category, key) |
| MemoryConsolidator.DedupKeepsBest | backend/app/services/memory_consolidator.py:275-291 | every (category, key) the user had survives, in a row at least as confident as any row of that pair |
| MemoryConsolidator.DedupOthers | backend/app/services/memory_consolidator.py:272-299 | other users' preference rows are neither deleted nor added |
| MemoryConsolidator.DeletedNotOthers | backend/app/services/memory_consolidator.py:286-299 | no marked id belongs to another user's row |
| MemoryConsolidator.SortRowsUnique | backend/app/services/memory_consolidator.py:272-281 | ordering keeps ids unique |
| MemoryConsolidator.KeyStringCollision | backend/app/services/memory_consolidator.py:287 | with the colon-joined text key two different preferences collide and the second is deleted; keyed by the pair, nothing is deleted |
| MemoryConsolidator.UserRemovedCounts | backend/app/services/memory_consolidator.py:70-76 | the removed counters add up to the user's low rows in the three tables before the decay |
| MemoryConsolidator.ConsolidateOthers | backend/app/services/memory_consolidator.py:48-88 | consolidating one user keeps primary keys unique and leaves every other user's number of low rows as it was |
| MemoryConsolidator.DedupUnique | backend/app/services/memory_consolidator.py:294-299 | de-duplication keeps primary keys unique |
| MemoryConsolidator.DedupKeepsOthersLow | backend/app/services/memory_consolidator.py:294-299 | deleting only the user's rows keeps another user's number of low rows |
| MemoryConsolidator.ConsolidateTables | backend/app/services/memory_consolidator.py:48-88 | decay, removal, stale tasks and de-duplication run in that order, leaving each table as its specification says, with unique ids and the merged counters |
| MemoryConsolidator.Consolidator.constructor | backend/app/services/memory_consolidator.py:31-44 | the consolidator holds the given tables |
| MemoryConsolidator.Consolidator.ConsolidateUser | backend/app/services/memory_consolidator.py:48-88 | the tables become their consolidated forms for the user and the counters are those of the specification |
| MemoryConsolidator.Consolidator.ConsolidateAll | backend/app/services/memory_consolidator.py:392-447 | the tables end as every user's committed steps leave them, in query order, a user that raised keeping the steps it committed; the processed count and the removed total (the low rows those users had at the start) count only the users that did not raise; the decayed total and the stale total add up those users' counters on the tables as each found them, and the stale total is present exactly when some user was processed |
| MemoryConsolidator.Consolidator.CommitSteps | backend/app/services/memory_consolidator.py:70-84 | a consolidation that raised leaves the tables as its committed steps made them: decayed after one, with the low rows removed after two, with the stale tasks marked after three; primary keys stay unique |
| MemoryConsolidator.Consolidator.ConsolidateOne | backend/app/services/memory_consolidator.py:423-443 | one user of the walk: the tables take its committed steps, and it reports counters exactly when all four steps committed, those of the full consolidation |
| MemoryConsolidator.CommittedOthers | backend/app/services/memory_consolidator.py:70-84 | however many steps of one user's consolidation committed, every other user's number of low rows is as it was |
| MemoryConsolidator.TotalsStep | backend/app/services/memory_consolidator.py:423-443 | one more user adds nothing to the totals when it raised and its counters when it did not, and the tables take its committed steps |
| MemoryConsolidator.StaleNone | backend/app/services/memory_consolidator.py:434 | the stale total is zero until some user has been processed, so the key appears with the first processed user's count |
| MemoryConsolidator.KeyString | backend/app/services/memory_consolidator.py:287 | the key text is the category, a colon and the key |
| MemoryConsolidator.DeletedIdsAsWritten | backend/app/services/memory_consolidator.py:283-291 | as written, every row the pair-keyed walk deletes is deleted, and every deleted id belongs to one of the rows |
| MemoryIntegration.TaskLineShape | backend/app/services/memory_integration_service.py:230-233 | a task line opens with the upper-cased priority in brackets and ends with its progress exactly when the progress is positive |
| MemoryIntegration.PresentKindsFacts | backend/app/services/memory_integration_service.py:209-243 | the kinds with entries, each once, in prompt order |
| MemoryIntegration.SectionLines | backend/app/services/memory_integration_service.py:210-214 | a section has its heading first and one line per entry |
| MemoryIntegration.Lines | backend/app/services/memory_integration_service.py:211-214 | one line per item, in order |
| MemoryIntegration.AppendLines | backend/app/services/memory_integration_service.py:211-214 | the loop appends one line per item, in order, to what was there |
| MemoryIntegration.SectionsOf | backend/app/services/memory_integration_service.py:205-243 | one section per listed kind, in order |
| MemoryIntegration.SectionsByKind | backend/app/services/memory_integration_service.py:205-243 | the sections are one per kind with entries, in prompt order |
| MemoryIntegration.SectionOpens | backend/app/services/memory_integration_service.py:210-238 | every section opens with its own heading |
| MemoryIntegration.ContextPrompt | backend/app/services/memory_integration_service.py:198-256 | the prompt is empty exactly when the context read failed or every kind is empty; otherwise it opens with the heading and the first non-empty kind's section and ends with the closing sentence |
| MemoryIntegration.AddSection | backend/app/services/memory_integration_service.py:209-215 | an empty kind adds nothing; otherwise its heading and lines are joined into one section and appended |
| MemoryIntegration.BuildMemoryContextPrompt | backend/app/services/memory_integration_service.py:183-256 | the method's prompt is the one the specification describes |
| MemoryIntegration.Extractables | backend/app/services/memory_integration_service.py:144 | exactly the user and assistant messages with content are kept, in order |
| MemoryIntegration.FormatRecent | backend/app/services/memory_integration_service.py:142-148 | the loop hands on the usable messages among the last `max_messages` |
| MemoryIntegration.RecentFacts | backend/app/services/memory_integration_service.py:142-148 | for a positive limit at most that many messages, exactly the usable ones among the last `max_messages`; a limit of 0 takes the whole list |
| MemoryIntegration.ExtractFromRecent | backend/app/services/memory_integration_service.py:140-179 | fewer than two usable messages give zero counts whatever the store would do; otherwise the counts are those of storing exactly the usable messages, and no error is ever reported |
| MemoryIntegration.ExtractAndStore | backend/app/services/memory_integration_service.py:63-119 | a background call answers only that it runs in the background; otherwise an error gives zero counts with the error text and a success gives the stored counts |
| MemoryIntegration.DisplayGroup | backend/app/services/memory_integration_service.py:363-381 | an empty group adds nothing; a non-empty one adds its heading and one line per memory |
| MemoryIntegration.DisplayLines | backend/app/services/memory_integration_service.py:363-381 | one line per memory plus one heading per non-empty group |
| MemoryIntegration.Display | backend/app/services/memory_integration_service.py:351-383 | the placeholder appears exactly when every group is empty; with preferences the text opens with the preferences heading |
| MemoryIntegration.AddGroup | backend/app/services/memory_integration_service.py:363-381 | one group's lines are appended to what was there |
| MemoryIntegration.FormatMemoriesForDisplay | backend/app/services/memory_integration_service.py:351-383 | the method's text is the one the specification describes |
| MemoryExtractor.ShownMessages | backend/app/services/memory_extractor.py:159-165 | exactly the messages that are not system messages and have content are kept |
| MemoryExtractor.EntriesShown | backend/app/services/memory_extractor.py:159-169 | one entry per shown message, in order, each labelled "User" or "Assistant" |
| MemoryExtractor.EntriesAppend | backend/app/services/memory_extractor.py:159-169 | formatting a concatenation concatenates the formatted parts, so order is kept |
| MemoryExtractor.FormatConversation | backend/app/services/memory_extractor.py:156-171 | the conversation text is the entries joined by blank lines |
| MemoryExtractor.SingleExchangeText | backend/app/services/memory_extractor.py:265-269 | an exchange with text on both sides is shown as the user's entry, a blank line and the assistant's entry |
| MemoryExtractor.Unfence | backend/app/services/memory_extractor.py:177-188 | the result is always stripped, and a reply that does not open with a fence is only stripped |
| MemoryExtractor.FenceMarkers | backend/app/services/memory_extractor.py:180-187 | in a fenced reply whose body has no backticks, the opening marker is at the start and the last fence at the very end |
| MemoryExtractor.DropOpeningFence | backend/app/services/memory_extractor.py:188 | deleting the opening marker leaves the body |
| MemoryExtractor.UnfenceFenced | backend/app/services/memory_extractor.py:177-188 | a reply that is a body without backticks inside a json code fence yields the stripped body |
| MemoryExtractor.ParseExtractionResponse | backend/app/services/memory_extractor.py:173-209 | text that is not JSON gives four empty lists; JSON that is not an object is an error; an object gives its four entries, each defaulting to an empty list |
| MemoryExtractor.ParseDefaults | backend/app/services/memory_extractor.py:194-199 | a kind missing from the object parses as an empty list |
| MemoryExtractor.TagFacts | backend/app/services/memory_extractor.py:220-224 | a tagged item carries the user id and timestamp, and the session id exactly when one is given, and keeps every other key's value |
| MemoryExtractor.TagGroup | backend/app/services/memory_extractor.py:220-242 | tagging a list of objects keeps its length |
| MemoryExtractor.TagAll | backend/app/services/memory_extractor.py:220-224 | each object of a list is tagged, in order |
| MemoryExtractor.TagItem | backend/app/services/memory_extractor.py:221-224 | the loop body stamps the item as the tagging specification says |
| MemoryExtractor.TagItems | backend/app/services/memory_extractor.py:220-224 | the loop over one list tags every object as the specification says |
| MemoryExtractor.ExtractionAlwaysEmpty | backend/app/services/memory_extractor.py:124-154 | as written, a chat completion is handed to the parser as a dict, so every extraction falls back to four empty lists |
| MemoryExtractor.ExtractionRecoversItems | backend/app/services/memory_extractor.py:107-145 | with the reply text read out of the completion, a reply listing preferences yields those preferences, each tagged |
| MemoryExtractor.ParsePreferencesOnly | backend/app/services/memory_extractor.py:191-199 | an object holding only preferences parses to them and three empty lists |
| MemoryExtractor.TagPreferencesOnly | backend/app/services/memory_extractor.py:217-244 | tagging such groups tags the preferences and leaves the empty lists empty |
| MemoryExtractor.AddMetadata | backend/app/services/memory_extractor.py:211-244 | any failure is the TypeError raised when a kind is not a list of objects (nor an empty string or object); on success each kind that was a list stays a list of the same length |
| MemoryExtractor.ExtractFromMessagesAsWritten | backend/app/services/memory_extractor.py:90-154 | as written, memories are found only when the completion itself is a string |
| MemoryExtractor.ExtractFromMessages | backend/app/services/memory_extractor.py:90-154 | memories are found only when the completion carries reply text, and then they are those extracted from that text |
| AgentLoop.SystemContent | backend/agent/core/agent.py:47-49 | the system content is the prompt alone without an extra prompt, and the prompt, a blank line and the extra prompt with one |
| AgentLoop.InitialMessagesShape | backend/agent/core/agent.py:51-56 | the system message comes first, then each extra message in order, then the user message; without extras the conversation is exactly system then user |
| AgentLoop.MergeAllConsistent | backend/agent/core/agent.py:83-93 | merging fragments keeps the key order of `current_tool_calls` a duplicate-free list of its keys |
| AgentLoop.MergeAllAppend | backend/agent/core/agent.py:67-93 | merging two runs of fragments is merging the first and then the second |
| AgentLoop.Unmentioned | backend/agent/core/agent.py:84-86 | an index no fragment names has only the empty entry |
| AgentLoop.MergeAllFacts | backend/agent/core/agent.py:83-93 | one entry per mentioned index, whose id and name are the latest non-empty ones and whose arguments are all that index's fragments in order |
| AgentLoop.NoFragmentsNoCalls | backend/agent/core/agent.py:82-100 | `current_tool_calls` is empty exactly when no fragment arrived |
| AgentLoop.InsertIntElements | backend/agent/core/agent.py:106 | inserting an index adds exactly that index |
| AgentLoop.SortIntsElements | backend/agent/core/agent.py:106 | sorting the indices keeps every index |
| AgentLoop.InsertIntIncreasing | backend/agent/core/agent.py:106 | inserting a new index into increasing indices keeps them increasing |
| AgentLoop.SortIntsIncreasing | backend/agent/core/agent.py:106 | sorting distinct indices gives them in increasing order |
| AgentLoop.SortedIndices | backend/agent/core/agent.py:106 | `sorted(current_tool_calls.keys())` lists every index once, in ascending order |
| AgentLoop.CallsAtFacts | backend/agent/core/agent.py:106-115 | one reconstructed call per listed index, in order |
| AgentLoop.RebuildFacts | backend/agent/core/agent.py:104-115 | the reconstructed calls are the merged entries, one per index, by ascending index, and there are none exactly when there are no entries |
| AgentLoop.TurnCount | backend/agent/core/agent.py:60 | `range(max_tool_turns)` runs `max_tool_turns` times, and not at all for a negative count |
| AgentLoop.ContentTextAppend | backend/agent/core/agent.py:161-166 | the text of two runs of events is the text of the first followed by that of the second |
| AgentLoop.CallEventsFacts | backend/agent/core/agent.py:120-156 | one call emits no content, exactly one `tool_result` carrying its id and result, and a `tool_start` exactly when its arguments parse |
| AgentLoop.CallFailures | backend/agent/core/agent.py:129-148 | unparsable arguments give an `ok: false` result and no `tool_start`; an exception in the registry gives an `ok: false` result naming the exception's type; otherwise the registry's answer comes back unchanged |
| AgentLoop.ResultsMatchMessages | backend/agent/core/agent.py:150-156 | the i-th `tool_result` and the i-th tool message both belong to the i-th call and carry the same result |
| AgentLoop.ToolEventsFacts | backend/agent/core/agent.py:120-156 | the calls of a turn produce their results in call order, one each, and no content |
| AgentLoop.ContentEventsText | backend/agent/core/agent.py:74-78 | a turn's content events spell the streamed text, and carry no tool result |
| AgentLoop.TurnText | backend/agent/core/agent.py:61-102 | a turn's content events spell its streamed text, and the turn ends the run exactly when the stream carried no tool-call fragment |
| AgentLoop.TurnFinishes | backend/agent/core/agent.py:95-102 | a turn without tool-call fragments appends one assistant message without calls, holding the text or nothing when there was none, and runs no tool |
| AgentLoop.TurnRunsCalls | backend/agent/core/agent.py:104-156 | any other turn appends the assistant message with its calls in index order, then one tool message per call, and emits one `tool_result` per call in the same order |
| AgentLoop.TurnGrows | backend/agent/core/agent.py:95-156 | every turn extends the conversation, and a finishing turn leaves an assistant message without tool calls last |
| AgentLoop.StepGrows | backend/agent/core/agent.py:60-156 | one step of the loop extends the conversation, ending with an assistant message without calls when it finishes |
| AgentLoop.TurnsBound | backend/agent/core/agent.py:60-102 | no more than `max_tool_turns` LLM calls are made, at least one when the run finished, and exactly that many when it did not |
| AgentLoop.TurnsGrow | backend/agent/core/agent.py:60-159 | the conversation only grows, and a finished run ends with an assistant message without tool calls |
| AgentLoop.TurnsExhausted | backend/agent/core/agent.py:158-159 | a run that never reached a turn without tool calls ends with the exceeded notice |
| AgentLoop.RunText | backend/agent/core/agent.py:60-166 | the run's text is the streamed text of every turn in order, followed by the exceeded notice when the turns ran out |
| AgentLoop.RunStreamFacts | backend/agent/core/agent.py:40-159 | the run from the initial messages is well shaped: growth, call bound and notice as above |
| AgentLoop.TurnsFacts | backend/agent/core/agent.py:60-159 | any step that extends the conversation gives a well-shaped run |
| AgentLoop.MergeDeltas | backend/agent/core/agent.py:83-93 | the loop over one chunk's fragments updates the entries as the merge specification says |
| AgentLoop.ReadStream | backend/agent/core/agent.py:67-93 | the loop over the stream accumulates the text, emits one content event per non-empty piece and merges every fragment |
| AgentLoop.RebuildCalls | backend/agent/core/agent.py:105-115 | the loop over the sorted indices builds the reconstructed calls |
| AgentLoop.ExecuteCall | backend/agent/core/agent.py:121-156 | one call's parse, announcement, execution and report give the events and result of the specification |
| AgentLoop.ExecuteCalls | backend/agent/core/agent.py:120-156 | the loop over the calls gives every call's events and one tool message per call |
| AgentLoop.RunTurn | backend/agent/core/agent.py:61-156 | one iteration of the turn loop gives the turn the specification describes |
| AgentLoop.BuildMessages | backend/agent/core/agent.py:47-56 | the starting messages are the initial messages of the specification |
| AgentLoop.TurnLoop | backend/agent/core/agent.py:60-159 | the turn loop gives the events and conversation of the specification, returning after a turn without calls and yielding the notice when the turns run out |
| AgentLoop.RunAgent | backend/agent/core/agent.py:40-159 | `run_stream` yields the events and leaves the conversation the specification describes |
| AgentLoop.Run | backend/agent/core/agent.py:161-166 | `run` returns the concatenated content of the stream's events |
| AgentLoop.OrchestratorPrompt | backend/app/core/agent/orchestrator.py:43-50 | a missing or empty system prompt takes the default prompt, any other is kept |
| AgentLoop.OrchestratorTurns | backend/app/core/agent/orchestrator.py:71 | a missing or zero turn count takes the configured one |
| AgentLoop.OrchestratorRunStream | backend/app/core/agent/orchestrator.py:52-247 | the orchestrator runs the same loop after its defaults for the prompt and the number of turns |
| ChatService.SystemPromptRoundTrip | backend/app/services/chat_service.py:323-326 | The attachment context can be read back from the system prompt, so distinct contexts give distinct prompts; every prompt starts with the base prompt, and the prompt is the base prompt alone exactly when the context is empty |
| ChatService.SystemPromptInjective | backend/app/services/chat_service.py:308-326 | Two contexts with the same system prompt are equal |
| ChatService.TurnsRoles | backend/app/services/chat_service.py:284-289 | Only user and assistant history entries reach the message list |
| ChatService.TurnsAppend | backend/app/services/chat_service.py:284-289 | Filtering the history distributes over concatenation, so the kept turns keep their history order |
| ChatService.TurnsKeepAll | backend/app/services/chat_service.py:284-289 | A history made only of user and assistant entries is passed on entry by entry, with its content or "" |
| ChatService.TurnsDropAll | backend/app/services/chat_service.py:284-289 | A history without user or assistant entries contributes nothing |
| ChatService.DropLast | backend/app/services/chat_service.py:284 | history[:-1] is one shorter than a non-empty history and is the history without its last entry |
| ChatService.BuildLlmMessages | backend/app/services/chat_service.py:257-306 | The loop builds exactly the system prompt, the filtered history without its last entry, and the current user message |
| ChatService.LlmMessagesShape | backend/app/services/chat_service.py:276-304 | The list has between 2 and the history length plus 2 entries, opens with the system prompt carrying the context, closes with the user's message, and holds only user and assistant turns in between |
| ChatService.UserContentParts | backend/app/services/chat_service.py:292-299 | With images the user content is the text part followed by the image parts in order; without images it is the plain message |
| ChatService.GatherAppend | backend/app/services/chat_service.py:221-252 | Collecting pieces distributes over concatenation of the attachment list, so every part keeps its attachment's place |
| ChatService.GatherOne | backend/app/services/chat_service.py:221-252 | One attachment alone contributes its own piece, or nothing |
| ChatService.GatherSkips | backend/app/services/chat_service.py:221-234 | Attachments that contribute nothing leave the text and image lists unchanged |
| ChatService.GatherNone | backend/app/services/chat_service.py:218-219 | No attachments give no text and no images |
| ChatService.GatherLoop | backend/app/services/chat_service.py:218-253 | The attachment loop, for any way of reading one attachment, ends with the text parts and image parts of the specification, each in attachment order |
| ChatService.ProcessAttachments | backend/app/services/chat_service.py:205-255 | The context is the text parts joined by blank lines and stripped, and the image parts are those of the image attachments, in order |
| ChatService.PieceRules | backend/app/services/chat_service.py:221-252 | Attachments without a file id, without a path or with a missing path contribute nothing; an image contributes its data URL with "image/png" when it has no content type; another file contributes nothing exactly when no text came out of it, and otherwise "文件: ", the label, a newline and the extracted text, the label being the given filename, the path's name when the field is absent, or "None" when it is null |
| ChatService.DataUrlParts | backend/app/services/chat_service.py:241-242 | A data URL reads back as "data:", the content type, ";base64," and the encoded bytes |
| ChatService.NoAttachments | backend/app/services/chat_service.py:102-108 | Without attachments the context is empty and there are no image parts |
| ChatService.StreamReply | backend/app/services/chat_service.py:139-162 | The streaming loop yields one content event per non-empty delta and accumulates the reply as the deltas laid end to end |
| ChatService.StreamStep | backend/app/services/chat_service.py:149-162 | One more chunk with text adds one event and extends the reply by exactly that text |
| ChatService.StreamEventsMakeReply | backend/app/services/chat_service.py:149-162 | Every content event carries non-empty text, and the saved reply is the concatenation of the events' texts in order; chunks without choices or content add nothing |
| ChatService.DeltasNonEmpty | backend/app/services/chat_service.py:157 | Every delta that is passed on is non-empty |
| ChatService.DeltasNext | backend/app/services/chat_service.py:149-158 | Reading one more chunk adds its text to the deltas when it has any, and nothing otherwise |
| ChatService.DeltasSnoc | backend/app/services/chat_service.py:149-162 | A chunk with text appends that text to the deltas; any other chunk leaves them unchanged |
| ChatService.Window | backend/app/services/chat_service.py:115 | messages[-10:] has at most ten entries, and they are the last ones of the session |
| ChatService.ProcessChat | backend/app/services/chat_service.py:47-127 | Built on the corrected history window `Prompt` (see "## Findings" and "## Left out"). An unknown session gives one error event naming it, and no title, no saved message and no model call; otherwise a title is set exactly when the session is still called "新会话" and has no messages, and then it is made from the message; the user's message is always saved first, and the model is not asked exactly when the chosen model is not allowed, and then there is a single error event and only the user's message is saved |
| ChatService.ChatReply | backend/app/services/chat_service.py:110-182 | An allowed model is asked with the prompt built from the attachments and the corrected history window `Prompt` (read after saving), not the window the source sends (`PromptAsWritten`), ending in the user message; the reply is saved after the user's message, and it is the concatenation of the streamed events' non-empty texts, or the complete content carried in one event |
| ChatService.ModelChoice | backend/app/services/chat_service.py:119 | The requested model is used unless it is missing or empty, and then the configured default |
| ChatService.AsWrittenDropsNewest | backend/app/services/chat_service.py:72-116 | As written, the history sent is the window of messages read before saving, without its last entry, so the newest earlier message never reaches the model |
| ChatService.AsWrittenLosesReply | backend/app/services/chat_service.py:284 | As written, for an exchange "hi" then "hello", the assistant's "hello" is missing from the prompt |
| ChatService.PromptKeepsRecent | backend/app/services/chat_service.py:110-116 | With the window read after saving, the prompt carries the last nine earlier messages in order, then the new one |
| ChatService.PromptKeepsReply | backend/app/services/chat_service.py:284 | With the intended window, the same exchange keeps the assistant's "hello" |
| ChatService.PieceOf | backend/app/services/chat_service.py:221-252 | a skipped attachment gives nothing, an image piece comes from an image file, and a text piece carries non-empty extracted text after the "文件: " header |
| ChatService.DumpedWithoutName | backend/app/services/chat_service.py:251 | an attachment whose filename is null is labelled "None", since get returns the stored null and does not fall back to the path's name |
| ChatService.PromptAsWritten | backend/app/services/chat_service.py:72-116 | as written, the prompt opens with the system message and closes with the user's message, and holds at most the window of earlier messages less one |
| SystemPrompts.BasePromptStripped | backend/agent/prompts/system_prompts.py:12-40 | the base prompt is non-empty and has no surrounding whitespace |
| SystemPrompts.Listed | backend/agent/prompts/system_prompts.py:72-78 | the paths text is at least as long as its two header lines |
| SystemPrompts.BuildSystemPromptWithPaths | backend/agent/prompts/system_prompts.py:59-80 | the loop that appends one "- path" line per path builds exactly the specified prompt, and the base prompt alone when there are no paths |
| SystemPrompts.ItemLines | backend/agent/prompts/system_prompts.py:77-78 | one line per path, each "- " followed by the path |
| SystemPrompts.ListedJoin | backend/agent/prompts/system_prompts.py:72-78 | the paths text is the title, the introduction and the item lines joined by newlines |
| SystemPrompts.ListedLines | backend/agent/prompts/system_prompts.py:72-78 | for paths without newlines, splitting the paths text on newlines gives back the title, the introduction and one item line per path |
| SystemPrompts.ListedHas | backend/agent/prompts/system_prompts.py:77-78 | every path appears in the paths text on its own line after "- " |
| SystemPrompts.StrippedWithList | backend/agent/prompts/system_prompts.py:80 | the final strip removes nothing when the last path ends in a visible character, and every path is in the prompt |
| SystemPrompts.PathsTextLines | backend/agent/prompts/system_prompts.py:72-78 | the paths text splits into "## 路径访问限制", "我只能访问以下路径：" and the path lines |
| SystemPrompts.PromptWithPathsShape | backend/agent/prompts/system_prompts.py:69-80 | with paths, the prompt is the base prompt, a blank line and the paths text, and contains every path |
| SystemPrompts.NoPathsPrompt | backend/agent/prompts/system_prompts.py:69-70 | without paths the prompt is the base prompt |
| SystemPrompts.UsedVisible | backend/agent/prompts/system_prompts.py:97-161 | the three headings end in visible characters |
| SystemPrompts.Section | backend/agent/prompts/system_prompts.py:148-163 | a section is stripped |
| SystemPrompts.SectionStarts | backend/agent/prompts/system_prompts.py:148-163 | a section starts with its "## heading" line and is never empty, whatever the context |
| SystemPrompts.SectionShape | backend/agent/prompts/system_prompts.py:148-163 | with a stripped, non-empty context a section is the heading line, a newline and the context |
| SystemPrompts.StrippedWithSection | backend/agent/prompts/system_prompts.py:101 | the stripped prompt starts with the base prompt, a blank line and the heading line |
| SystemPrompts.StrippedWithStrippedSection | backend/agent/prompts/system_prompts.py:101 | with a stripped context the stripped prompt is exactly the base prompt, the heading line and the context |
| SystemPrompts.SectionPrompt | backend/agent/prompts/system_prompts.py:93-101 | an empty context gives the base prompt; any other starts with the base prompt and the heading line; a stripped one gives exactly base, heading and context |
| SystemPrompts.AttachmentPrompt | backend/agent/prompts/system_prompts.py:83-101 | the attachment context comes under "## 附件内容" after the base prompt, and an empty context gives the base prompt |
| SystemPrompts.MemoryPrompt | backend/agent/prompts/system_prompts.py:104-122 | the memory context comes under "## 对话历史摘要" after the base prompt, and an empty context gives the base prompt |
| SystemPrompts.Parts3 | backend/agent/prompts/system_prompts.py:145-163 | at most three parts |
| SystemPrompts.Parts3Facts | backend/agent/prompts/system_prompts.py:145-163 | there are no parts exactly when all three inputs are empty; the attachment part comes first, then the memory part, and the custom part last; every part is one of the three |
| SystemPrompts.ExtraParts | backend/agent/prompts/system_prompts.py:145-163 | at most three sections |
| SystemPrompts.BuildExtraSystemPrompt | backend/agent/prompts/system_prompts.py:129-165 | the method builds exactly the specified extra prompt, with the heading its test expects for custom instructions |
| SystemPrompts.ExtraPartsFacts | backend/agent/prompts/system_prompts.py:145-163 | every section is non-empty and stripped |
| SystemPrompts.JoinStripped | backend/agent/prompts/system_prompts.py:165 | joining stripped non-empty sections by blank lines needs no further strip and is empty only for no sections |
| SystemPrompts.HeadingIn | backend/agent/prompts/system_prompts.py:165 | a section's heading occurs in the joined prompt |
| SystemPrompts.ExtraPromptJoin | backend/agent/prompts/system_prompts.py:165 | the extra prompt is the sections joined by blank lines, and it is empty exactly when all three inputs are empty |
| SystemPrompts.ExtraPromptHeadings | backend/agent/prompts/system_prompts.py:145-165 | each non-empty input puts its heading into the extra prompt |
| SystemPrompts.ExtraPromptOrder | backend/agent/prompts/system_prompts.py:145-165 | with three stripped inputs the prompt is the attachment, memory and custom sections in that order, separated by blank lines |
| SystemPrompts.IntendedVisible | backend/tests/test_mac_agent.py:176 | the expected headings end in visible characters |
| SystemPrompts.ContainsHead | backend/tests/test_mac_agent.py:176 | a substring's first character occurs in the string |
| SystemPrompts.CustomOnly | backend/agent/prompts/system_prompts.py:159-165 | custom instructions alone give just their section |
| SystemPrompts.NoUseIn | backend/tests/test_mac_agent.py:176 | the custom section as written for the test's instructions contains no "用" |
| SystemPrompts.CustomHeadingMissesTest | backend/agent/prompts/system_prompts.py:159-163 | as written, the test's instructions "请简洁回答" come under "## 我自定义指令", so the prompt does not contain the expected "用户自定义指令" |
| SystemPrompts.TestInstructionStripped | backend/tests/test_mac_agent.py:175 | the test's instructions are a non-empty stripped string |
| SystemPrompts.HeadedContains | backend/tests/test_mac_agent.py:176-177 | a heading line followed by its text contains both |
| SystemPrompts.CustomHeadingMeetsTest | backend/tests/test_mac_agent.py:174-177 | with the expected heading, the prompt for the test's instructions contains both "用户自定义指令" and the instructions |
| ToolRegistry.Names | src/agent/tools/registry.py:8 | one name per tool, in order |
| ToolRegistry.Lookup | src/agent/tools/registry.py:24 | nothing is found exactly when no entry has the name; what is found is an entry with that name |
| ToolRegistry.Put | src/agent/tools/registry.py:8 | assigning under an existing name keeps the list of names; a new name goes last |
| ToolRegistry.LookupPut | src/agent/tools/registry.py:8 | after assigning a tool under its name, that name finds the tool and every other name finds what it found before |
| ToolRegistry.Build | src/agent/tools/registry.py:7-8 | the registry holds each name at most once |
| ToolRegistry.LastNamed | src/agent/tools/registry.py:8 | the tool kept for a name is one of the tools and carries that name |
| ToolRegistry.BuildFacts | src/agent/tools/registry.py:7-8 | the registry holds the distinct names in order of first appearance, and under each name the last tool that has it |
| ToolRegistry.OpenAITools | src/agent/tools/registry.py:10-21 | one schema per registered tool, in order |
| ToolRegistry.OpenAIToolsFacts | src/agent/tools/registry.py:10-21 | one schema per distinct tool name, in order of first appearance, each naming the tool and carrying the description and parameters of the last tool with that name |
| ToolRegistry.SchemaNamed | src/agent/tools/registry.py:12-18 | a schema's function entry carries the tool's name |
| ToolRegistry.LookupDistinct | src/agent/tools/registry.py:24 | when names are distinct, looking up an entry's name finds that entry |
| ToolRegistry.ExecuteFacts | src/agent/tools/registry.py:23-27 | an unknown name is answered with a failure "Unknown tool: name" and runs nothing; a known name returns the result of the last tool registered under it, unchanged |
| ToolRegistry.Execute | src/agent/tools/registry.py:23-27 | an unknown name gives the unknown-tool failure; a registered name gives the answer of a tool registered under that name |
| Security.DeleteCharShrinks | backend/app/utils/security.py:34 | Removing a character never lengthens the text |
| Security.ReplaceAbsentChar | backend/app/utils/security.py:88-89 | Replacing a character that does not occur leaves the text unchanged |
| Security.StripKeepsAbsent | backend/app/utils/security.py:36 | Stripping neither adds a character nor lengthens the text |
| Security.SanitizeString | backend/app/utils/security.py:16-36 | An empty input gives ""; otherwise the result is no longer than the input or a non-negative max_length, holds no NUL and has no surrounding whitespace |
| Security.SanitizeStringIdempotent | backend/app/utils/security.py:16-36 | Sanitising twice with the same non-negative limit gives the same as sanitising once |
| Security.OneOrMore | backend/app/utils/security.py:53 | A character class followed by + matches exactly the non-empty texts made only of that class |
| Security.ValidateUserId | backend/app/utils/security.py:39-54 | The intended check accepts exactly the texts of 1 to 100 characters that are all letters, digits, _ or - |
| Security.UserIdAsWrittenIff | backend/app/utils/security.py:49-54 | The check as written accepts exactly the valid ids, and also a valid id followed by one newline when the whole is at most 100 characters |
| Security.UserIdTrailingNewline | backend/app/utils/security.py:53-54 | "alice\n" passes the check as written but is not a valid id |
| Security.AllHexSlice | backend/app/utils/security.py:67 | A slice is all hex digits exactly when every character in that range of the text is one |
| Security.GroupsTwo | backend/app/utils/security.py:67 | A run of hex groups separated by dashes splits into its first group, a dash and the remaining groups |
| Security.UuidShape | backend/app/utils/security.py:57-68 | The UUID pattern matches exactly the 36-character texts with dashes at 8, 13, 18 and 23 and hex digits of either case everywhere else |
| Security.ValidateSessionId | backend/app/utils/security.py:57-68 | An accepted session id has 36 characters and no newline |
| Security.SessionIdTrailingNewline | backend/app/utils/security.py:67-68 | Every valid session id followed by a newline passes the check as written and is not a valid id |
| Security.SanitizeFilename | backend/app/utils/security.py:71-97 | The result is the last path component with each dangerous token replaced in list order, cut to 200 characters plus suffix when longer than 255, or "unnamed_file" |
| Security.SanitizeFilenameSafe | backend/app/utils/security.py:71-97 | The result is never empty and holds no slash, backslash or NUL |
| Security.SanitizeFilenameNoReserved | backend/app/utils/security.py:87-89 | None of the characters | < > : " ? * survives |
| Security.SanitizeFilenameEmpty | backend/app/utils/security.py:97 | An empty name becomes "unnamed_file" |
| Security.TokenAbsent | backend/app/utils/security.py:87-97 | A one-character dangerous token that is neither a lower-case letter nor _ never occurs in the result |
| Security.UnnamedLetters | backend/app/utils/security.py:97 | The fallback name is made only of lower-case letters and _ |
| Security.NoEmptyToken | backend/app/utils/security.py:87 | No dangerous token is empty |
| Security.SanitizeFilenameLong | backend/app/utils/security.py:92-95 | A cleaned name over 255 characters becomes its first 200 characters followed by its suffix |
| Security.ValidateModelName | backend/app/utils/security.py:100-111 | A model is valid exactly when it occurs in the whitelist |
| Security.Redact | backend/app/utils/security.py:114-139 | Redaction keeps the shape: dicts stay dicts with the same keys in the same order, lists keep their length, and every other value is returned unchanged |
| Security.RedactIsClean | backend/app/utils/security.py:114-139 | After redaction no sensitive key anywhere in the value holds anything but the redaction marker |
| Security.RedactClean | backend/app/utils/security.py:114-139 | A value with nothing sensitive in it is returned unchanged |
| Security.RedactIdempotent | backend/app/utils/security.py:114-139 | Redacting twice gives the same as redacting once |
| Security.RedactField | backend/app/utils/security.py:130-135 | Each dict field keeps its key; its value becomes "***REDACTED***" exactly when the key contains a sensitive fragment in lower case, and is redacted recursively otherwise |
| Security.KeyFragmentCatchesAll | backend/app/utils/security.py:124-132 | Because "key" is a fragment, "monkey" is treated as sensitive, just like "api_key" |
| Security.ContainsLowered | backend/app/utils/security.py:132 | A fragment found in a key without capitals is found in its lower-case form |
| Security.SensitiveIgnoresCase | backend/app/utils/security.py:132 | A key is sensitive exactly when its lower-case form is |
| Security.Live | backend/app/utils/security.py:175-179 | The kept entries are exactly those whose age at now is below the window, and there are no more of them than before |
| Security.TotalUnit | backend/app/utils/security.py:184 | With every count equal to 1, the summed count is the number of entries |
| Security.LiveUnit | backend/app/utils/security.py:175-179 | Dropping old entries keeps every count equal to 1 |
| Security.RateLimiter.constructor | backend/app/utils/security.py:148-158 | A new limiter stores its limit and window and has no history |
| Security.RateLimiter.IsAllowed | backend/app/utils/security.py:160-197 | The key's history is cut to its entries inside the window (empty for a new key); the request is allowed exactly when their total is below the limit, and then it is recorded with count 1; no other key changes |
| Security.RateLimiter.Reset | backend/app/utils/security.py:199-202 | The key's history is removed and no other key changes |
| Security.LimitHolds | backend/app/utils/security.py:175-197 | The live total is the number of live entries, and recording an allowed request never takes the key above max_requests entries |
| Security.ValidateUserIdAsWritten | backend/app/utils/security.py:49-54 | the regular expression as written accepts every valid user id, and what it accepts is 1 to 100 characters long with every character but possibly the last one a letter, digit, "_" or "-" |
| Security.ValidateSessionIdAsWritten | backend/app/utils/security.py:67-68 | the pattern as written accepts every valid session id, and what it accepts is 36 characters long or 37 with a final newline |
| Security.RedactSensitiveData | backend/app/utils/security.py:114-139 | the redacted value holds no sensitive key with a value other than "***REDACTED***" at any depth, and a value that is already clean comes back unchanged |
| Logging.FragmentChars | backend/app/infrastructure/logging/formatters.py:56 | A fragment contained in a text has each of its characters in that text |
| Logging.Absent | backend/app/infrastructure/logging/formatters.py:56 | A fragment with a character missing from the text is not contained in it |
| Logging.FilterKeepsMonkey | backend/app/infrastructure/logging/formatters.py:14-29 | Without "key" among the fragments, "monkey" is not sensitive for the log filter |
| Logging.FilterCatchesApiKey | backend/app/infrastructure/logging/formatters.py:14-29 | "api_key" is sensitive for the log filter |
| Logging.FilterRule | backend/app/infrastructure/logging/formatters.py:32-50 | Redacting a dict keeps its keys in order and replaces a field's value by "***REDACTED***" exactly when its key is sensitive, redacting it recursively otherwise; a list keeps its length and has every item redacted |
| Logging.EventDict.constructor | backend/app/infrastructure/logging/formatters.py:59 | The event holds the given fields |
| Logging.FormatLogEvent | backend/app/infrastructure/logging/formatters.py:59-79 | The caller's dict gets the timestamp added in place; the returned event is the stamped dict redacted, with the source marker set |
| Logging.TimestampNotSensitive | backend/app/infrastructure/logging/formatters.py:69-74 | The "timestamp" key is not sensitive, so the timestamp survives redaction |
| Logging.FormattedFacts | backend/app/infrastructure/logging/formatters.py:59-79 | The formatted event carries "_source" set to "mac_agent_backend" and the given timestamp, or now when there was none; its keys are the stamped keys, with "_source" added last when it was not there |
| Logging.GetIndex | backend/app/infrastructure/logging/formatters.py:59-79 | A key that is present is found at its first position in the field list |
| Logging.GetAt | backend/app/infrastructure/logging/formatters.py:59-79 | The field at the first position with a key is what looking that key up gives |
| Logging.FormatException | backend/app/infrastructure/logging/formatters.py:82-101 | The result is empty exactly when there is no exception info or all three of its parts are None; otherwise it has exactly the type, message and traceback keys |
| Logging.FormatExceptionFrames | backend/app/infrastructure/logging/formatters.py:100-116 | A traceback becomes one frame dict per frame, in order, each carrying that frame's line number |
| Logging.PerformanceLogHandler.constructor | backend/app/infrastructure/logging/handlers.py:14-24 | A new handler keeps its threshold and has written nothing |
| Logging.PerformanceLogHandler.Emit | backend/app/infrastructure/logging/handlers.py:35-41 | A record is written exactly when it carries a duration of at least the threshold |
| Logging.SlowRecords | backend/app/infrastructure/logging/handlers.py:35-41 | The written records are exactly the given records that carry a duration at or above the threshold, and no more of them |
| Logging.EmitAll | backend/app/infrastructure/logging/handlers.py:35-41 | Emitting a sequence of records writes exactly the slow ones, in order |
| Logging.SlowAppend | backend/app/infrastructure/logging/handlers.py:35-41 | Selecting slow records distributes over concatenation |
| Logging.SlowSnoc | backend/app/infrastructure/logging/handlers.py:35-41 | One more record adds itself to the written ones exactly when it is slow |
| Logging.EventCounter | backend/app/infrastructure/logging/handlers.py:61-68 | An event bumps at most one counter, never the error counter |
| Logging.TallyFacts | backend/app/infrastructure/logging/handlers.py:59-71 | A record keeps the set of counters, adds 1 to errors exactly when its level is ERROR or above, and adds 1 to the counter its event names and to no other |
| Logging.MetricsHandler.constructor | backend/app/infrastructure/logging/handlers.py:50-57 | A new handler has every counter at 0 |
| Logging.MetricsHandler.Emit | backend/app/infrastructure/logging/handlers.py:59-71 | Emitting a record updates the counters as the tally rule says |
| Logging.MetricsHandler.GetMetrics | backend/app/infrastructure/logging/handlers.py:73-75 | The counters are returned as they are |
| Logging.MetricsHandler.ResetMetrics | backend/app/infrastructure/logging/handlers.py:77-80 | Every counter goes back to 0 and the set of counters stays the same |
| Logging.ErrorAggregationHandler.constructor | backend/app/infrastructure/logging/handlers.py:89-98 | A new handler keeps its limit and has no counts |
| Logging.ErrorAggregationHandler.Emit | backend/app/infrastructure/logging/handlers.py:100-117 | A record below ERROR changes nothing; an error bumps its signature's count and is rewritten with the aggregation message exactly when that count reaches the limit plus one |
| Logging.Occurrences | backend/app/infrastructure/logging/handlers.py:100-109 | The errors counted for a signature are no more than the records |
| Logging.AggregateAll | backend/app/infrastructure/logging/handlers.py:100-117 | Emitting a sequence of records passes on one record per record |
| Logging.AggregateCount | backend/app/infrastructure/logging/handlers.py:102-109 | One record adds 1 to the count of its signature exactly when it is an error, and leaves every other count alone |
| Logging.AggregateAllCount | backend/app/infrastructure/logging/handlers.py:100-109 | After a sequence of records, a signature's count grows by the number of errors with that signature |
| Logging.AggregateAllAt | backend/app/infrastructure/logging/handlers.py:100-117 | A record comes out rewritten exactly when it is an error whose signature count, including it, is the limit plus one |
| Logging.RewriteChanges | backend/app/infrastructure/logging/handlers.py:115-117 | The rewritten record differs from the original |
| Logging.OccurrencesPrefix | backend/app/infrastructure/logging/handlers.py:100-109 | The count over a longer prefix is never smaller |
| Logging.RewrittenOnce | backend/app/infrastructure/logging/handlers.py:112-117 | Of two errors with the same signature, at least one comes out unchanged: the aggregation message is written at most once per signature |
| Logging.OccurrencesSnoc | backend/app/infrastructure/logging/handlers.py:100-109 | An error with the signature adds exactly one to the count of the prefix |
| Logging.OccurrencesAppend | backend/app/infrastructure/logging/handlers.py:100-109 | Counting distributes over concatenation |
| Metrics.Keys | backend/app/middleware/metrics.py:22-24 | A counter has one key per entry |
| Metrics.Count | backend/app/middleware/metrics.py:22-24 | A key never counted reads as 0, as a defaultdict gives |
| Metrics.BumpCount | backend/app/middleware/metrics.py:38-40 | Counting a key adds 1 to that key and leaves every other key's count alone |
| Metrics.BumpSum | backend/app/middleware/metrics.py:38-40 | Counting a key adds 1 to the total of the counter |
| Metrics.BumpKeys | backend/app/middleware/metrics.py:38-40 | A new key goes last and an existing key keeps its place |
| Metrics.BumpDistinct | backend/app/middleware/metrics.py:38-40 | Counting keeps the keys distinct |
| Metrics.Durations | backend/app/middleware/metrics.py:42 | The recorded durations are one per request |
| Metrics.Errors | backend/app/middleware/metrics.py:44-45 | There are no more errors than requests |
| Metrics.LogSnoc | backend/app/middleware/metrics.py:38-45 | One more request adds its duration, adds 1 to the errors exactly when its status is 400 or more, and adds its duration to the total |
| Metrics.Recent | backend/app/middleware/metrics.py:47-49 | The kept durations are the last 1000, or all of them when there are fewer |
| Metrics.RecentSnoc | backend/app/middleware/metrics.py:42-49 | Appending and then trimming to 1000 keeps exactly the last 1000 durations of the whole history |
| Metrics.RecentShort | backend/app/middleware/metrics.py:47-49 | With at most 1000 durations nothing is trimmed |
| Metrics.SortAsc | backend/app/middleware/metrics.py:70 | Sorting the durations permutes them |
| Metrics.SortAscSorted | backend/app/middleware/metrics.py:70 | The sorted durations ascend |
| Metrics.PercentileIndex | backend/app/middleware/metrics.py:90-91 | The percentile index is inside the data |
| Metrics.PercentileIndexMonotone | backend/app/middleware/metrics.py:90-91 | A higher percentile never picks an earlier index |
| Metrics.Percentile | backend/app/middleware/metrics.py:86-91 | The percentile of no data is 0, and otherwise one of the data |
| Metrics.PercentileMonotone | backend/app/middleware/metrics.py:86-91 | On ascending data the percentiles lie between the least and the greatest value and grow with the percentile |
| Metrics.Ratio | backend/app/middleware/metrics.py:59-62 | A ratio over a non-positive denominator is 0, and a part over its whole lies between 0 and 1 |
| Metrics.TopPaths | backend/app/middleware/metrics.py:77-84 | At most limit paths are returned, all taken from the counter, and all of them when there are no more than limit |
| Metrics.TopPathsOrdered | backend/app/middleware/metrics.py:77-84 | The returned paths come in non-increasing order of count |
| Metrics.PrefixIsTop | backend/app/middleware/metrics.py:79-84 | In a list sorted by descending key, everything in the first n has a key at least that of everything after |
| Metrics.TopPathsAreTop | backend/app/middleware/metrics.py:77-84 | No path left out has been requested more often than any path in the result |
| Metrics.RecordKeeps | backend/app/middleware/metrics.py:30-49 | Recording a request keeps the counters consistent with the request log: each counter sums to the number of requests, errors are the requests with status of 400 or more, the total is the sum of durations, and the kept durations are the last 1000 |
| Metrics.MetricsCollector.constructor | backend/app/middleware/metrics.py:21-28 | A new collector has empty counters, no errors, no duration and no history |
| Metrics.MetricsCollector.RecordRequest | backend/app/middleware/metrics.py:30-49 | The request is counted under its method, status and path; the error count grows exactly for status 400 or more; its duration is added to the total and to the last-1000 list; the invariant is kept |
| Metrics.MetricsCollector.GetMetrics | backend/app/middleware/metrics.py:51-75 | The snapshot reports the number of requests and errors, the request rate and error rate as ratios that are 0 on a zero denominator, an error rate between 0 and 1, the mean duration, the method and status counts, the top 10 paths, and, exactly when there were requests, p50, p95 and p99 in non-decreasing order, each one of the kept durations |
| Metrics.MetricsCollector.Reset | backend/app/middleware/metrics.py:93-101 | Every counter is cleared and the error count, the total duration and the durations are reset |
| Metrics.Dispatch | backend/app/middleware/metrics.py:123-165 | A request to /metrics records nothing; any other request is recorded under its normalised path, with status 500 when the application raised |
| ErrorHandler.SseEndpoints | backend/app/middleware/error_handler.py:128-130 | Every path beginning with /api/v1/chat and every path ending in /stream is a server-sent-events endpoint |
| ErrorHandler.SessionsNotSse | backend/app/middleware/error_handler.py:128-130 | Session paths ending in a slash are not server-sent-events endpoints |
| ErrorHandler.ErrorCode | backend/app/middleware/error_handler.py:165-181 | A status outside the table maps to "unknown_error" |
| ErrorHandler.ErrorCodeKnown | backend/app/middleware/error_handler.py:165-181 | A status maps to "unknown_error" exactly when it is not in the table, since no entry of the table is "unknown_error" |
| ErrorHandler.LocTexts | backend/app/middleware/error_handler.py:159 | Each location part is turned into its text, one per part, in order |
| ErrorHandler.Descriptions | backend/app/middleware/error_handler.py:158-161 | Each error gives one "loc: msg" description, in order |
| ErrorHandler.FormatValidationErrors | backend/app/middleware/error_handler.py:155-162 | No errors give "", and a single error gives its own description |
| ErrorHandler.FormatValidationErrorsCons | backend/app/middleware/error_handler.py:162 | The descriptions are joined with "; " between consecutive errors |
| ErrorHandler.FormatValidationErrorsMentions | backend/app/middleware/error_handler.py:155-162 | The message mentions the description of every error |
| ErrorHandler.HeaderRequestId | backend/app/middleware/error_handler.py:150 | The X-Request-ID header is never empty: it is the request id when there is a non-empty one, and "unknown" otherwise |
| ErrorHandler.SseErrorResponse | backend/app/middleware/error_handler.py:133-152 | The body is one "event: error" frame whose data is the dumped message and request id, ended by a blank line, and the response carries its four headers with the request id last |
| ErrorHandler.Handle | backend/app/middleware/error_handler.py:14-125 | Every handler answers a server-sent-events endpoint with an SSE error carrying its message, and any other path with a JSON error carrying its status and body |
| ErrorHandler.JsonErrorFields | backend/app/middleware/error_handler.py:48-125 | Every JSON error names its kind under "error" and carries the request id, null when there is none; an HTTP error keeps its own status |
| ErrorHandler.GetLast | backend/app/middleware/error_handler.py:48-125 | A key found only in the last field of a dict is read from there |
| RetryPolicy.Pow | backend/app/infrastructure/llm/retry_policy.py:53 | A power of a non-negative base is non-negative, and one of a base of at least 1 is at least 1 |
| RetryPolicy.BaseDelayGrows | backend/app/infrastructure/llm/retry_policy.py:52-55 | With a non-negative initial delay and a base of at least 1, the capped delay never shrinks from one attempt to the next |
| RetryPolicy.MulNonneg | backend/app/infrastructure/llm/retry_policy.py:60 | A product of non-negative reals is non-negative |
| RetryPolicy.CalculateDelay | backend/app/infrastructure/llm/retry_policy.py:42-62 | Without jitter the delay is the initial delay times base to the attempt, capped at max_delay; with jitter it lies between half of that and all of it; it never exceeds max_delay unless the capped delay is negative |
| RetryPolicy.ShouldRetryCases | backend/app/infrastructure/llm/retry_policy.py:64-84 | Timeouts and connection errors are retried; an error with a response is retried exactly when its status is 408, 429, 500, 502, 503 or 504; an error with a response without a status, or any other error, is not |
| RetryPolicy.Sleeps | backend/app/infrastructure/llm/retry_policy.py:135-145 | The sleeps after a range of attempts are one per attempt, each the delay computed for that attempt |
| RetryPolicy.RunFrom | backend/app/infrastructure/llm/retry_policy.py:115-155 | The wrapper stops within max_attempts; every attempt but the last raised a retryable error; it returns the last attempt's value exactly when that attempt returned, and otherwise re-raises its error; a retryable error is re-raised only at the last allowed attempt; it sleeps after every attempt but the last |
| RetryPolicy.RunNoAttempts | backend/app/infrastructure/llm/retry_policy.py:118-155 | With max_attempts of 0 or less the function is never called, and `raise None` makes the wrapper fail with a TypeError |
| RetryPolicy.RunFirstSuccess | backend/app/infrastructure/llm/retry_policy.py:120-122 | A function that succeeds at once is called once and nothing sleeps |
| RetryPolicy.WithRetry | backend/app/infrastructure/llm/retry_policy.py:115-157 | The attempt loop, tracking last_exception, returns exactly what the specification of the wrapper gives: the result, the number of attempts and the sleeps |
| RetryPolicy.ShouldRetry | backend/app/infrastructure/llm/retry_policy.py:64-84 | timeouts and connection errors are retried; a failure with a response is retried only for status 408, 429, 500, 502, 503 or 504; any other failure is not retried |
| Repositories.LockedNeedsWord | backend/app/infrastructure/database/repositories.py:20-23 | A message taken for a lock conflict always contains "locked" once lower-cased |
| Repositories.LockedExamples | backend/app/infrastructure/database/repositories.py:20-23 | "database is locked" is a lock conflict, while "locked" alone, without "sqlite", is not |
| Repositories.DelayMs | backend/app/infrastructure/database/repositories.py:31-48 | Every sleep lies between 50 and 800 milliseconds, and the first is 50 |
| Repositories.DelaySchedule | backend/app/infrastructure/database/repositories.py:31-48 | The sleeps double from 50 milliseconds: 50, 100, 200, 400, then 800 from the fifth on |
| Repositories.Delays | backend/app/infrastructure/database/repositories.py:31-48 | The first n sleeps are the scheduled ones, in order |
| Repositories.RetryFrom | backend/app/infrastructure/database/repositories.py:33-50 | The loop makes at most retries + 1 attempts; every attempt but the last failed with a retried error; it returns the last attempt's value exactly when that attempt succeeded, and otherwise raises that attempt's error; a retried error is raised only after the last allowed attempt; it sleeps after every retried failure, the last one included |
| Repositories.RetryLoop | backend/app/infrastructure/database/repositories.py:26-50 | The loop, for any test of which failures to retry, computes exactly the result, the attempt count and the sleeps of the specification |
| Repositories.RunWithWriteRetry | backend/app/infrastructure/database/repositories.py:26-50 | The helper retries exactly the SQLite lock errors, with the same outcome as the specification |
| Repositories.RetryOutcome | backend/app/infrastructure/database/repositories.py:26-50 | From the first attempt: at most retries + 1 attempts, the value of the first success, and otherwise the error of the last attempt, a lock error only when every attempt hit one |
| Repositories.Limit | backend/app/infrastructure/database/repositories.py:232 | A limit of n keeps the first n rows, or all of them when n is negative or larger than the table |
| Repositories.RecentMessages | backend/app/infrastructure/database/repositories.py:222-235 | The recent messages are the last count messages, oldest first |
| Repositories.KeptSplit | backend/app/infrastructure/database/repositories.py:255-262 | Every message is either kept or deleted |
| Repositories.KeptFrom | backend/app/infrastructure/database/repositories.py:255-260 | When exactly the messages from some position on are kept, what is left is that suffix |
| Repositories.SuffixIds | backend/app/infrastructure/database/repositories.py:244-250 | With distinct ids, a suffix holds exactly the ids of its own messages |
| Repositories.KeptSuffix | backend/app/infrastructure/database/repositories.py:255-260 | Keeping the ids of a suffix leaves exactly that suffix |
| Repositories.IdsReverse | backend/app/infrastructure/database/repositories.py:244-250 | Reversing the messages keeps the same ids |
| Repositories.DeleteOldKeepsNewest | backend/app/infrastructure/database/repositories.py:237-272 | With distinct ids and keep_last of 1 or more, the newest keep_last messages remain, in order, and the number deleted is the rest |
| Repositories.DeleteOldWhenKept | backend/app/infrastructure/database/repositories.py:252-262 | When the ids to keep are those of a suffix, that suffix remains and the messages before it are counted as deleted |
| Repositories.NewestIdsSuffix | backend/app/infrastructure/database/repositories.py:244-250 | The ids to keep are those of the newest keep_last messages, and there is at least one |
| Repositories.KeepNoneDeletesNothing | backend/app/infrastructure/database/repositories.py:248-253 | With keep_last of 0 no id is kept, so nothing is deleted and 0 is returned |
| Repositories.EmptySessionDeletesNothing | backend/app/infrastructure/database/repositories.py:252-253 | An empty session deletes nothing |
| Repositories.Kept | backend/app/infrastructure/database/repositories.py:255-260 | the rows kept are rows of the session whose ids are in the keep list |
| Repositories.DeleteOldMessages | backend/app/infrastructure/database/repositories.py:237-272 | kept rows and deleted rows add up to the session's rows, every kept row was there before, and keeping 0 deletes nothing |
| Shell.FirstMatchListed | backend/agent/tools/shell/executor.py:55-57 | A reason found is the reason of one of the patterns |
| Shell.FirstMatchIsFirst | backend/agent/tools/shell/executor.py:55-57 | The reason given is that of the first pattern, in list order, whose lower-case form occurs in the command |
| Shell.FirstMatchNone | backend/agent/tools/shell/executor.py:55-59 | No reason is found exactly when no pattern occurs in the command |
| Shell.IsDangerousCommand | backend/agent/tools/shell/executor.py:41-59 | A command is dangerous exactly when some pattern occurs in its lower-cased, stripped form; a safe command has the empty reason and a dangerous one the reason of a listed pattern; the copy at backend/agent/tools/mac_tools.py:2492-2510 is the same code |
| Shell.RmRfRootRefused | backend/agent/tools/shell/executor.py:44-57 | Any command containing "rm -rf /" is refused with the reason for deleting the root directory |
| Shell.LowerPatterns | backend/agent/tools/shell/executor.py:44-45 | The two rm patterns are already in lower case |
| Shell.FirstMatchHead | backend/agent/tools/shell/executor.py:55-57 | When the first pattern occurs, its reason is given |
| Shell.SecondReasonUnreachable | backend/agent/tools/shell/executor.py:44-45 | The reason listed for "rm -rf /*" is never given, because every command containing it also contains "rm -rf /", which comes first |
| Shell.ShadowFacts | backend/agent/tools/shell/executor.py:43-52 | "rm -rf /" occurs in "rm -rf /*", and no other pattern carries the second pattern's reason |
| Shell.Shadowed | backend/agent/tools/shell/executor.py:55-57 | A pattern that contains an earlier pattern never gives its own reason, unless another pattern shares it |
| Shell.Report | backend/agent/tools/shell/executor.py:98-105 | A finished command is reported ok exactly when its exit code is 0, under the stripped command |
| Shell.ExecuteChecks | backend/agent/tools/shell/executor.py:61-76 | An empty command is refused as required before anything else, and a non-empty dangerous one is refused with its reason and the command; the copy at backend/agent/tools/mac_tools.py:2512-2527 is the same code |
| Shell.ExecuteFinished | backend/agent/tools/shell/executor.py:61-105 | A command that ran was non-empty and not dangerous, and is ok exactly when its exit code is 0 |
| Shell.RefusedBeforeRunning | backend/agent/tools/shell/executor.py:66-76 | An empty or dangerous command is refused whatever the machine is like, so nothing runs |
| Shell.RunsInCurrentDirectory | backend/agent/tools/shell/executor.py:80-105 | Without a working directory the command runs in the current directory, reported as "当前目录", and its exit code is reported |
| Shell.DisallowedDirectoryRefused | backend/agent/tools/shell/executor.py:81-118 | A working directory outside the allowed roots makes the call fail with the not-allowed message, before anything runs |
| Shell.ExecuteRefusesRmRf | backend/agent/tools/shell/executor.py:61-76 | A command containing "rm -rf /" is refused with its reason |
| Shell.Execute | backend/agent/tools/shell/executor.py:61-105 | a command that is empty once stripped is refused as required, a dangerous one with the refusal naming its reason and the command; a command that ran was non-empty and safe, and succeeded exactly when its exit code was 0 |
| FileTools.WriteSizeFirst | backend/agent/tools/file/basic.py:124-126 | Content over max_bytes, once encoded, is refused whatever the file system holds, and nothing changes |
| FileTools.WriteExistingBeforeParent | backend/agent/tools/file/basic.py:127-128 | An existing path without overwrite is refused as already existing, before the parent is looked at |
| FileTools.WriteSuccess | backend/agent/tools/file/basic.py:118-133 | A write succeeds exactly when the path is allowed, the content fits, the path is new or overwrite is set, and the path is not a directory and its parent is a directory; it then reports the encoded length, stores the content at the path and changes no other file; any other outcome changes nothing; the copy at backend/agent/tools/mac_tools.py:200-236 is the same code |
| FileTools.AppendChecks | backend/agent/tools/file/basic.py:155-169 | Appending checks the size first, then that an existing path is a file, then that a missing file may be created; a refusal changes nothing; the copy at backend/agent/tools/mac_tools.py:237-272 is the same code |
| FileTools.AppendSuccess | backend/agent/tools/file/basic.py:155-172 | A successful append reports the encoded length and leaves the old text followed by the new one, a missing file being created only when create_if_missing is set |
| FileTools.WriteThenAppend | backend/agent/tools/file/basic.py:118-172 | Writing a new file and then appending to it leaves the two texts one after the other |
| FileTools.Keep | backend/agent/tools/file/basic.py:272-276 | Filtering never adds elements |
| FileTools.KeepSnoc | backend/agent/tools/file/basic.py:272-276 | One more element is kept exactly when it passes the test |
| FileTools.KeepPrefix | backend/agent/tools/file/basic.py:272-278 | What is kept from a prefix is a prefix of what is kept from the whole |
| FileTools.KeepMembers | backend/agent/tools/file/basic.py:272-276 | An element is kept exactly when it is in the input and passes the test |
| FileTools.KeepIncreasing | backend/agent/tools/file/basic.py:272-276 | Filtering keeps an increasing order |
| FileTools.Capped | backend/agent/tools/file/basic.py:277-278 | The cap keeps a prefix of at most cap elements, and everything when there are no more than cap |
| FileTools.Cap | backend/agent/tools/file/basic.py:262-278 | The effective cap is max_matches when it is positive and 1 otherwise, because the length is checked only after a match is appended |
| FileTools.CappedAtPrefix | backend/agent/tools/file/basic.py:269-278 | Once a prefix yields cap matches, the result is exactly those matches and nothing after them |
| FileTools.Numbered | backend/agent/tools/file/basic.py:272 | Lines are numbered from 1 in file order |
| FileTools.LineHit | backend/agent/tools/file/basic.py:273-275 | a line is a hit exactly when it contains the query, both lowered when the search is not case-sensitive |
| FileTools.CollectMatches | backend/agent/tools/file/basic.py:269-279 | The matching loop returns the numbered lines containing the query, case-insensitively when case_sensitive is false, in line order, cut at the effective cap |
| FileTools.CappedKept | backend/agent/tools/file/basic.py:269-278 | Every returned element came from the input and passes the test |
| FileTools.MatchesAreHits | backend/agent/tools/file/basic.py:269-278 | Every match carries a line number within the file, the text of that very line, and contains the query; there are at most the effective cap of them |
| FileTools.MatchesInOrder | backend/agent/tools/file/basic.py:272-278 | Matches come in increasing line order |
| FileTools.MatchesComplete | backend/agent/tools/file/basic.py:272-278 | When the cap was not reached, every line containing the query is among the matches |
| FileTools.ReadWhole | backend/agent/tools/file/basic.py:266-268 | A file within the byte limit is read whole |
| FileTools.FindInFile | backend/agent/tools/file/basic.py:255-279 | The tool returns its specification: not-allowed raised first, then an empty query refused, then a missing file refused, and then the capped matches of the file's lines read within max_bytes; the copy at backend/agent/tools/mac_tools.py:355-379 and the copy at backend/app/core/tools/mac_tools.py:343-367 are the same code |
| FileTools.Pairs | backend/agent/tools/file/basic.py:62-63 | Each file of a walk step is paired with its directory, in order |
| FileTools.Texts | backend/agent/tools/file/basic.py:65 | Each found file is reported as the text of its directory joined with its name |
| FileTools.SearchWalk | backend/agent/tools/file/basic.py:61-68 | The walk loop returns the files whose names match the pattern, in walk order, stopping at the effective cap |
| FileTools.ScanFiles | backend/agent/tools/file/basic.py:63-67 | Scanning one directory's files either stops at the cap with the capped matches of the whole walk, or ends with the matches so far, still under the cap |
| FileTools.WalkStepAt | backend/agent/tools/file/basic.py:62-63 | A walk step's files sit in the flattened walk right after those of the earlier steps |
| FileTools.FlattenPrefix | backend/agent/tools/file/basic.py:62-63 | The files of the first steps are a prefix of the flattened walk |
| FileTools.PrefixOfPrefix | backend/agent/tools/file/basic.py:62-63 | A prefix of the first steps' files is the same prefix of the whole walk |
| FileTools.SearchFiles | backend/agent/tools/file/basic.py:54-68 | The tool returns its specification: not-allowed raised, a missing directory refused, or the paths of the capped matches |
| FileTools.SearchFacts | backend/agent/tools/file/basic.py:61-68 | The search returns exactly the effective cap of names when the walk has that many matches, and every match otherwise; every name found matches the pattern and was walked |
| FileTools.LexTotal | backend/agent/tools/file/basic.py:32 | Any two names are ordered one way or the other |
| FileTools.LexTrans | backend/agent/tools/file/basic.py:32 | The string order is transitive |
| FileTools.InsertName | backend/agent/tools/file/basic.py:32 | Inserting a name adds exactly that name |
| FileTools.InsertNameBound | backend/agent/tools/file/basic.py:32 | Insertion keeps a lower bound of all names |
| FileTools.InsertNameSorted | backend/agent/tools/file/basic.py:32 | Insertion into a sorted list keeps it sorted |
| FileTools.SortNames | backend/agent/tools/file/basic.py:32 | Sorting keeps every name, as often as it occurs |
| FileTools.SortNamesSorted | backend/agent/tools/file/basic.py:32 | The sorted names are in string order |
| FileTools.ListDirectory | backend/agent/tools/file/basic.py:27-33 | A path outside the allowed roots raises the not-allowed error; the listing succeeds exactly when the path is allowed and a directory, and then holds the directory's names, each as often as iterdir gives it, in sorted order |
| FileTools.WriteFile | backend/agent/tools/file/basic.py:118-133 | a path outside the allowed roots raises the not-allowed error; any failure leaves the file system unchanged; a success was allowed, reports the UTF-8 size, which fits the limit, happened with overwrite or on a new file, and stores exactly the content at the path |
| FileTools.AppendFile | backend/agent/tools/file/basic.py:155-172 | a path outside the allowed roots raises the not-allowed error; any failure leaves the file system unchanged; a success was allowed, reports the UTF-8 size, which fits the limit, happened on an existing file or with create_if_missing, and stores the old content followed by the new |
| TextSearch.BuildSearchCommand | backend/agent/tools/text/search.py:77-89 | The command-building steps produce exactly the specified search command |
| TextSearch.DigitsNotFlag | backend/agent/tools/text/search.py:84 | The text of a non-negative number starts with a digit, so it is never taken for a flag |
| TextSearch.SearchFlagsFacts | backend/agent/tools/text/search.py:79-86 | Each of -i, -n, -C and -v is present exactly when its option asks for it, -i first and -v last when present, and -C followed by the context size |
| TextSearch.SearchCommandLayout | backend/agent/tools/text/search.py:77-89 | The command is grep, then its flags, then -m with the match limit, -E with the pattern, and the file, six words more than the flags |
| TextSearch.ExcludeArgs | backend/agent/tools/text/search.py:196-197 | Each excluded directory adds two words |
| TextSearch.ExcludeArgsAt | backend/agent/tools/text/search.py:196-197 | The k-th excluded directory comes right after its own --exclude-dir, in order |
| TextSearch.BuildRecursiveCommand | backend/agent/tools/text/search.py:181-199 | The command-building steps produce exactly the specified recursive command |
| TextSearch.ExcludeLoop | backend/agent/tools/text/search.py:196-197 | The loop appends the exclusion words to what was built before |
| TextSearch.RecursiveCommandTail | backend/agent/tools/text/search.py:181-199 | The recursive command opens with grep -r, ends with the exclusions and then the directory, and without a file pattern other than * has no --include |
| TextSearch.GrepSearch | backend/agent/tools/text/search.py:57-113 | An empty pattern is refused first, then a path outside the allowed roots; a successful search reports the pattern and the file searched; the copy at backend/agent/tools/mac_tools.py:1896-1952 is the same code |
| TextSearch.GrepSearchOutcome | backend/agent/tools/text/search.py:73-110 | For an allowed existing file, the search succeeds exactly when grep exits with 0 or 1; it then reports grep's output and its number of lines, 0 exactly for empty output, and otherwise grep's error |
| TextSearch.GroupByFile | backend/agent/tools/text/search.py:210-216 | The grouping loop builds exactly the specified grouping of output lines by file |
| TextSearch.GroupedKeys | backend/agent/tools/text/search.py:210-216 | The groups are exactly the distinct file parts of the lines holding a colon |
| TextSearch.GroupedContents | backend/agent/tools/text/search.py:210-216 | A file's group holds the text after the first colon of each of its lines, in output order |
| TextSearch.GroupedAbsent | backend/agent/tools/text/search.py:210-216 | A file with no group has no lines in the output |
| TextSearch.GrepRecursive | backend/agent/tools/text/search.py:161-235 | A missing pattern or directory is refused first, then a directory outside the allowed roots; a successful search ran on an existing directory with grep exiting 0 or 1, and reports its output, the number of output lines, the number of distinct files among them, and the directory; the copy at backend/agent/tools/mac_tools.py:2000-2075 is the same code |
| TextSearch.FilePartsBound | backend/agent/tools/text/search.py:210-223 | There are never more files matched than output lines |
| TextSearch.SubsetCard | backend/agent/tools/text/search.py:223 | A subset is no larger than its superset |
| DocumentSummary.NonBlankLinesFacts | backend/agent/tools/document/processor.py:105-106 | Every kept line is non-empty, stripped, and the stripped form of some input line, and every line that is not blank is kept |
| DocumentSummary.Head | backend/agent/tools/document/processor.py:116 | lines[:n] is the first n lines, or all of them when there are fewer |
| DocumentSummary.GenerateSummary | backend/agent/tools/document/processor.py:100-128 | The loop computes the specified summary, and an empty text or one starting with "[" is returned unchanged; the copy at backend/agent/tools/mac_tools.py:544-572 and the copy at backend/app/core/tools/mac_tools.py:532-560 are the same code |
| DocumentSummary.ShownLines | backend/agent/tools/document/processor.py:113-122 | The line loop keeps exactly the lines the character budget allows |
| DocumentSummary.TakeLinesFacts | backend/agent/tools/document/processor.py:113-122 | The loop keeps a prefix, at least one line when there is any; when it stops early, the running total has just passed the limit, which it had not before the last kept line; without a limit it keeps every line |
| DocumentSummary.TotalCons | backend/agent/tools/document/processor.py:118 | The running character count of a line followed by others is its length plus theirs |
| DocumentSummary.SummaryLinesFacts | backend/agent/tools/document/processor.py:108-122 | At most 5, 15 or 30 lines are shown by length, 15 for an unknown length, always the first ones and at least one when there are any; the loop stops short only for "short" beyond 1000 characters or "medium" beyond 3000, totals the lines before the last had not passed |
| DocumentSummary.Summary | backend/agent/tools/document/processor.py:100-128 | An empty text or one starting with "[" comes back unchanged; otherwise the summary starts with the shown lines joined by newlines and ends with the statistics of the whole text's length and its non-blank line count |
| DocumentSummary.SummaryPassThrough | backend/agent/tools/document/processor.py:102-103 | An empty text and a text starting with "[" come back unchanged |
| DocumentSummary.ProcessSingleFile | backend/agent/tools/document/processor.py:130-150 | The outcome keeps the path as given; it succeeds exactly when the path is allowed and names an existing file, and then carries the summary of the extracted text; a disallowed path fails with the not-allowed message in brackets |
| DocumentSummary.SuccessCount | backend/agent/tools/document/processor.py:190-193 | There are no more successes than outcomes |
| DocumentSummary.Sections | backend/agent/tools/document/processor.py:195-200 | Each outcome adds six report lines |
| DocumentSummary.Outcomes | backend/agent/tools/document/processor.py:169-179 | There is one outcome per file path, each that file's own |
| DocumentSummary.Tally | backend/agent/tools/document/processor.py:190-200 | The report loop counts exactly the successes and appends exactly the specified sections |
| DocumentSummary.BatchExecute | backend/agent/tools/document/processor.py:152-223 | The batch tool computes its specification: the result and the file system after the report is written; the copy at backend/agent/tools/mac_tools.py:596-667 is the same code |
| DocumentSummary.BatchGuards | backend/agent/tools/document/processor.py:158-162 | An empty file list is refused first and an empty output path next, and neither touches the file system |
| DocumentSummary.BatchCounts | backend/agent/tools/document/processor.py:164-220 | A finished batch reports every file once: the successes are the allowed, present files, the failures are the rest, the two add up to the number of files, and the report is written at the output path; the copy at backend/agent/tools/mac_tools.py:624-662 is the same code |
| DocumentSummary.Flip | backend/agent/tools/document/processor.py:218 | Swapping success and failure keeps one outcome per file |
| DocumentSummary.FlipCount | backend/agent/tools/document/processor.py:218 | The failures are the outcomes the successes leave over |
| DocumentSummary.SuccessCountPermutation | backend/agent/tools/document/processor.py:178-179 | The number of successes does not depend on the order in which the files finish |
| DocumentSummary.RemoveLast | backend/agent/tools/document/processor.py:178-179 | The last outcome of one ordering sits somewhere in any other ordering of the same outcomes |
| DocumentSummary.SuccessCountRemove | backend/agent/tools/document/processor.py:190-193 | Removing one outcome removes its success from the count |
| DocumentSummary.ReportLineCount | backend/agent/tools/document/processor.py:182-204 | The report has six header and footer lines plus six per file, and starts with its title |
| DataStats.Values | backend/agent/tools/data/processor.py:100 | one value per row, in row order, each the row's field for that header or "" when the row lacks the key |
| DataStats.NonEmpty | backend/agent/tools/data/processor.py:101 | the non-empty values never outnumber the values |
| DataStats.NonEmptyCounts | backend/agent/tools/data/processor.py:101-106 | the non-empty and the empty values together are all the values, and no kept value is empty |
| DataStats.NonEmptyAt | backend/agent/tools/data/processor.py:101 | the k-th non-empty value sits at a position of the input with exactly k non-empty values before it, so the filter keeps input order |
| DataStats.ColumnFacts | backend/agent/tools/data/processor.py:99-108 | per column: the total is the row count, total equals non-empty plus empty, and the samples are the first five non-empty values (fewer when there are fewer), in row order and all non-empty |
| DataStats.StatsMapKeys | backend/agent/tools/data/processor.py:98-108 | the statistics table has exactly one key per header |
| DataStats.StatsMapAt | backend/agent/tools/data/processor.py:98-108 | each header's entry is that column's statistics, whatever the other headers |
| DataStats.ColumnStatistics | backend/agent/tools/data/processor.py:98-108 | the loop over the headers builds exactly the statistics table of the specification |
| DataStats.AnalyzeCsv | backend/agent/tools/data/processor.py:74-122 | the analyzer's execute returns exactly the outcome of the specification, error paths included |
| DataStats.CsvOutcome | backend/agent/tools/data/processor.py:77-119 | success exactly when the path is non-empty, allowed, present and holds at least one row; then the row count is the number of rows, the headers and column count come from the first row, and the statistics have exactly those headers, each with its column's statistics |
| DataStats.CjkCount | backend/agent/tools/data/processor.py:165 | the number of characters in U+4E00 to U+9FFF is at most the length |
| DataStats.Drop | backend/agent/tools/data/processor.py:162 | removing every occurrence of a character leaves none |
| DataStats.DropLength | backend/agent/tools/data/processor.py:162 | removing every occurrence of a character shortens the text by its number of occurrences |
| DataStats.DropAppend | backend/agent/tools/data/processor.py:162 | removing a character distributes over concatenation |
| DataStats.DropAbsent | backend/agent/tools/data/processor.py:162 | removing an absent character changes nothing |
| DataStats.ReplaceDrops | backend/agent/tools/data/processor.py:162 | replacing a one-character string with "" is removing that character |
| DataStats.SplitCount | backend/agent/tools/data/processor.py:157 | splitting on a non-empty separator gives one more piece than there are occurrences |
| DataStats.LetterRun | backend/agent/tools/data/processor.py:166 | the leading run of ASCII letters is all letters, is maximal, and is non-empty when the text starts with a letter |
| DataStats.TextStatistics | backend/agent/tools/data/processor.py:141-182 | an empty path and a disallowed path fail with their messages; success exactly when the path is non-empty, allowed and the file is readable; then it names the normalized file and counts every character |
| DataStats.StatisticsFacts | backend/agent/tools/data/processor.py:157-166 | the line count is the number of newlines plus one; the count without spaces leaves out exactly the spaces and the newlines; neither it nor the Chinese count exceeds the character count |
| DataStats.CountChar | backend/agent/tools/data/processor.py:157 | counting a one-character string is counting that character |
| DataStats.DropCountOther | backend/agent/tools/data/processor.py:162 | removing one character keeps the count of every other |
| DataStats.CjkCountAppend | backend/agent/tools/data/processor.py:165 | the Chinese count distributes over concatenation |
| DataStats.CjkCountNone | backend/agent/tools/data/processor.py:165 | text below U+4E00 holds no Chinese characters |
| DataStats.TwoNewlines | backend/tests/test_all_tools.py:307 | three newline-free lines joined by newlines hold two newlines |
| DataStats.TestLines | backend/tests/test_all_tools.py:307 | in the text of the test, the two English lines hold no Chinese characters and the last line holds four |
| DataStats.TestFile | backend/tests/test_all_tools.py:304-312 | the test's text gives 3 lines and 4 Chinese characters, as the test expects |
| DataStats.EnglishWordsBoundary | backend/agent/tools/data/processor.py:166 | a letter run followed by a digit is not an English word, so "abc123 def" counts one |
| DeveloperScripts.ScriptCommand | backend/agent/tools/developer/scripts.py:49 | the command is the interpreter, the script's path text and then the script's arguments unchanged |
| DeveloperScripts.WorkingDirectoryNeverRuns | backend/agent/tools/developer/scripts.py:51-54 | as written, every call with a non-empty working directory fails, and an allowed, existing script in an allowed directory fails with the constructor's TypeError |
| DeveloperScripts.RunScript | backend/agent/tools/developer/scripts.py:34-61 | an empty path and a disallowed path fail with their messages; the script runs exactly when it is allowed and exists and any working directory is allowed; then the result is the runner's report of the command, with a 120 second limit, in that directory; the copy at backend/agent/tools/mac_tools.py:1099-1126 is the same code |
| DeveloperScripts.RunScriptAgrees | backend/agent/tools/developer/scripts.py:51-58 | the intended tool and the written one give the same answer except exactly when a working directory is given and the intended tool runs the script |
| DeveloperScripts.PidsFacts | backend/agent/tools/developer/scripts.py:116-117 | every process id read from lsof is non-empty and has no surrounding whitespace |
| DeveloperScripts.CollectInfo | backend/agent/tools/developer/scripts.py:126-131 | the loop collects the ps output of exactly the process ids whose ps command succeeded, in order |
| DeveloperScripts.KillAll | backend/agent/tools/developer/scripts.py:134-139 | the loop keeps exactly the process ids whose kill command succeeded, in order |
| DeveloperScripts.KillPort | backend/agent/tools/developer/scripts.py:95-152 | the port killer returns exactly the outcome of the specification; the copy at backend/agent/tools/mac_tools.py:2183-2240 is the same code |
| DeveloperScripts.InvalidPortRefused | backend/agent/tools/developer/scripts.py:100-101 | a port outside 1 to 65535 is refused with the invalid-port message and no command's outcome matters; backend/tests/test_new_tools.py:319-325 expects this |
| DeveloperScripts.KilledIff | backend/agent/tools/developer/scripts.py:116-148 | a process id is reported killed exactly when lsof listed it and its kill exited with status 0; the signal is SIGKILL exactly when forced; the port and the force flag are echoed; without process info none is reported; no more ids are killed than were listed |
| DeveloperScripts.ProcessInfoFrom | backend/agent/tools/developer/scripts.py:127-131 | every reported process description is the output of a successful ps of one of the listed ids |
| DeveloperScripts.ProcessInfoBound | backend/agent/tools/developer/scripts.py:127-131 | there is at most one description per listed process id |
| DeveloperScripts.RunScriptAsWritten | backend/agent/tools/developer/scripts.py:34-61 | as written, an empty script path is refused with the script-required message, a working directory always ends in an error, and a run is the runner's call on the script command with the script timeout |
| DeveloperScripts.PortSpec | backend/agent/tools/developer/scripts.py:95-152 | a port outside 1 to 65535 is refused, and only such a port, with the invalid-port message; a free port reports that nothing uses it; a cleared port keeps the port and the force flag, with no process information unless asked for |
| CommandPaths.TableAbsolute | backend/agent/tools/command_paths.py:7-30 | every standard location is an absolute path |
| CommandPaths.ResolveOrder | backend/agent/tools/command_paths.py:33-60 | a name starting with "/" is returned unchanged; otherwise the standard location when the host has that file, else a non-empty answer of which, else the name itself |
| CommandPaths.ResolveSources | backend/agent/tools/command_paths.py:33-60 | the result is the name itself, a standard location that exists, or what which reported |
| CommandPaths.ResolveIdempotent | backend/agent/tools/command_paths.py:44-52 | resolving an absolute answer again changes nothing, and a table hit is always absolute |
| CommandPaths.ResolveList | backend/agent/tools/command_paths.py:63-78 | the list keeps its length; the first element is resolved and every later one kept |
| CommandPaths.ResolveListFacts | backend/agent/tools/command_paths.py:73-78 | an empty list comes back empty; the arguments are kept; a list whose program is already absolute comes back equal to the input |
| CommandPaths.Resolve | backend/agent/tools/command_paths.py:33-60 | the result is the name itself, its table entry or what which found; an absolute name is kept; a changed name was not absolute and was found in the table or by which |
| CommandRunner.Run | backend/agent/tools/command_runner.py:11-29 | ok holds exactly when the process finished with status 0, which is exactly when the exit code is 0; a finished process reports its status and its stripped output streams; a timeout reports "Command timed out" and an OS error its message, both with exit code -1, no output and no stderr |
| ToolCatalog.DistinctAppend | backend/agent/tools/mac_tools.py:2586-2730 | joining two duplicate-free, disjoint name lists keeps them duplicate-free |
| ToolCatalog.DistinctPrefix | backend/app/core/tools/mac_tools.py:1834-1959 | a prefix of a duplicate-free list is duplicate-free |
| ToolCatalog.PartsDistinct | backend/agent/tools/mac_tools.py:2586-2730 | each block of ten tool names is free of duplicates |
| ToolCatalog.FirstPartsDisjoint | backend/agent/tools/mac_tools.py:2586-2730 | the first block shares no name with the others |
| ToolCatalog.MiddlePartsDisjoint | backend/agent/tools/mac_tools.py:2586-2730 | the second and third blocks share no name with the later ones |
| ToolCatalog.LastPartsDisjoint | backend/agent/tools/mac_tools.py:2586-2730 | the last two blocks share no name |
| ToolCatalog.DisjointAppend | backend/agent/tools/mac_tools.py:2586-2730 | two lists each disjoint from a third are disjoint from it together |
| ToolCatalog.DefaultToolNames | backend/agent/tools/mac_tools.py:2572-2730 | the tool collection returns 50 tools with distinct names, the last being execute_shell_command; the older copy returns the first 43 of them, also distinct, without the shell tool; the older list is at backend/app/core/tools/mac_tools.py:1832-1959; backend/tests/test_agent_shell_integration.py:50-51 expects this |
| FileService.SanitizeFilename | backend/app/services/file_service.py:195-219 | the replacement loop over the dangerous tokens computes exactly the sanitised name |
| FileService.ReplaceAllKeepsAbsent | backend/app/services/file_service.py:209-211 | a character other than "_" that is absent from the name stays absent through the replacements |
| FileService.ReplaceAllRemoves | backend/app/services/file_service.py:209-211 | no one-character dangerous token other than "_" survives the replacements |
| FileService.ReplaceAllEmpty | backend/app/services/file_service.py:209-211 | replacing in the empty name leaves it empty |
| FileService.SafeNameAvoids | backend/app/services/file_service.py:205-219 | a one-character dangerous token is absent from the sanitised name unless the fallback name was chosen |
| FileService.SafeNameFacts | backend/app/services/file_service.py:205-219 | the sanitised name is never empty; it is the cleaned last component, or "unnamed_file" when that is empty; a cleaned name over 255 characters becomes its first 200 characters followed by its suffix; an empty last component gives "unnamed_file" |
| FileService.Avoids | backend/app/services/file_service.py:209-219 | a one-character dangerous token that "unnamed_file" does not contain is absent from every sanitised name |
| FileService.KeepsSeparatorsOut | backend/app/services/file_service.py:209-219 | a token list beginning with slash and backslash and holding NUL fourth keeps all three out of a non-empty name |
| FileService.UploadNameSafe | backend/app/services/file_service.py:205-219 | the upload service's own sanitised name is non-empty and holds no slash, backslash or NUL |
| FileService.TruncateText | backend/app/services/file_service.py:189-193 | text within the limit is returned unchanged; longer text keeps its first limit characters and gains the truncation notice |
| FileService.TruncateBounds | backend/app/services/file_service.py:189-193 | a truncated text exceeds the limit by at most the notice, starts with the original's first limit characters and is never shorter than the smaller of the text and the limit |
| FileService.UpperCaseExtension | backend/app/services/file_service.py:105-106 | an upper-case image extension counts as an image even without a content type |
| FileService.LowerPng | backend/app/services/file_service.py:106 | lower-casing ".PNG" gives ".png" |
| FileService.TextFileNotImage | backend/app/services/file_service.py:102-106 | a ".txt" file with content type text/plain is not an image |
| FileService.LowerTxt | backend/app/services/file_service.py:105-106 | ".txt" stays ".txt" under lower-casing and is not an image extension |
| FileService.NotImageType | backend/app/services/file_service.py:102 | "text/plain" does not start with "image/" |
| FileService.NonEmpty | backend/app/services/file_service.py:151-152 | the kept pages or paragraphs are all non-empty |
| FileService.ExtractText | backend/app/services/file_service.py:118-139 | an unsupported extension gives ""; a failed extraction, from a missing library or any raised error, gives ""; a spreadsheet or text file gives its truncated text; with a non-negative limit the result never exceeds the limit by more than the notice |
| FileService.SaveUpload | backend/app/services/file_service.py:34-89 | content over the size limit is refused with the "File too large" message, naming both sizes, exactly when it is too large; otherwise the record carries the id, the sanitised name, the content type and the size, and the path is the upload directory joined with "id_name" |
| FileService.DeleteOutsideUploadDir | backend/app/services/file_service.py:240 | as written, "/srv/up2/x" passes the containment test for the upload directory "/srv/up" although it is not inside it |
| FileService.SiblingPrefix | backend/app/services/file_service.py:240 | "/srv/up2/x" starts with the text "/srv/up" |
| FileService.TextUp | backend/app/services/file_service.py:240 | the path with components srv and up prints as "/srv/up" |
| FileService.TextUp2X | backend/app/services/file_service.py:240 | the path with components srv, up2 and x prints as "/srv/up2/x" |
| FileService.ParsedLiteral | backend/app/services/file_service.py:237 | parsing the text of a path made of proper components gives that path back |
| FileService.DeleteFile | backend/app/services/file_service.py:226-260 | a file is reported deleted only when its resolved path lies inside the resolved upload directory, component by component, it exists and the removal succeeded |
| FileService.DeleteFileAgrees | backend/app/services/file_service.py:239-253 | for a path inside an absolute upload directory, the corrected check gives the same answer as the written one |
| FileService.TextPrefix | backend/app/services/file_service.py:240 | the text of a path starts with the text of each of its absolute or non-empty ancestors |
| FileService.JoinPrefix | backend/app/services/file_service.py:240 | joining a longer list of components starts with the join of its first part |
| FileService.IsImageFile | backend/app/services/file_service.py:91-106 | a file without an image content type and without an extension is not an image |
| FileService.DeleteFileAsWritten | backend/app/services/file_service.py:226-260 | as written, a deletion happens only when the resolved path's text starts with the resolved upload directory's text, the file exists and unlinking succeeds; for the upload directory itself the result is exactly whether it exists and unlinks |
| SessionService.InitialTitleRule | backend/app/services/session_service.py:66-68 | a given title that is not blank is kept as it is, unstripped; a missing or blank one becomes "新会话"; the result is never blank |
| SessionService.FromDatabase | backend/app/services/session_service.py:127-167 | the database yields a session exactly when it exists and belongs to the caller, and then it carries the caller's id and the session's id |
| SessionService.Lookup | backend/app/services/session_service.py:121-143 | with every cache entry stored under its owner, a session returned by get_session belongs to the caller; when messages are wanted the database alone decides, so a session is found exactly when it exists and the caller owns it |
| SessionService.OtherOwnerNotFound | backend/app/services/session_service.py:132-143 | a session that is missing or owned by someone else, and not cached for the caller, is not found |
| SessionService.Service.constructor | backend/app/services/session_service.py:24-43 | the service starts with no users, sessions, messages or cache entries |
| SessionService.Service.CreateSession | backend/app/services/session_service.py:45-102 | the user is recorded, the session is stored under the new id with its initial title, and its dictionary with no messages is cached under the caller and the id and returned; nothing else changes |
| SessionService.Service.EnsureUser | backend/app/services/session_service.py:61 | the user is in the users table afterwards, and nothing else changes |
| SessionService.Service.StoreSession | backend/app/services/session_service.py:71-75 | the session row is stored under its id, and nothing else changes |
| SessionService.Service.CacheSession | backend/app/services/session_service.py:88-93 | the dictionary is cached under its owner and id, the cache stays owned, and nothing else changes |
| SessionService.Service.GetSession | backend/app/services/session_service.py:104-177 | the answer is the cached dictionary when messages are not wanted and one is cached, otherwise the database's; it always belongs to the caller; a database answer is cached; the tables do not change |
| SessionService.Service.UpdateSessionTitle | backend/app/services/session_service.py:213-251 | true exactly when the ownership check finds the session and its row exists; then only its title changes and its cache entry is dropped; when the check fails nothing changes |
| SessionService.Service.DeleteSession | backend/app/services/session_service.py:253-288 | true exactly when the ownership check finds the session and its row exists; then the row and its messages are removed and the cache entry is dropped; when the check fails nothing changes |
| SessionService.Service.AddMessage | backend/app/services/session_service.py:290-333 | the new message, with the given id, role and content, joins the end of its session's messages and nothing else changes |
| SessionService.Service.GetRecentMessages | backend/app/services/session_service.py:335-364 | the answer is the repository's most recent messages of the session |
| SessionService.Service.CleanupOldMessages | backend/app/services/session_service.py:366-394 | the session's messages become what the repository's cleanup keeps and the count it reports is returned; every other session and table is unchanged |
| UserService.NormalizeSinglePath | backend/app/services/user_service.py:177-215 | a non-empty answer comes from a non-blank entry, is that entry's stripped and resolved form, is not "/" and is an existing directory; an entry that resolves to "/", to a missing path or to a non-directory gives "" |
| UserService.Kept | backend/app/services/user_service.py:170-171 | one entry contributes at most one path, nothing exactly when it normalizes to "", and otherwise its normalized form |
| UserService.Candidates | backend/app/services/user_service.py:169-171 | there are no more candidate paths than entries |
| UserService.CandidatesSnoc | backend/app/services/user_service.py:169-173 | reading one more entry appends exactly what it contributes, and nothing for an invalid entry |
| UserService.CandidatesMembers | backend/app/services/user_service.py:169-171 | a path is a candidate exactly when some entry normalizes to it |
| UserService.NormalizePaths | backend/app/services/user_service.py:156-175 | the loop keeps exactly the first occurrence of each non-empty normalized path, in input order |
| UserService.NormalizedPaths | backend/app/services/user_service.py:156-175 | the normalized list has no duplicates and holds exactly the non-empty normalized forms of the entries, each an existing directory other than "/" |
| UserService.Roots | backend/app/services/user_service.py:235-249 | no more roots than entries |
| UserService.RootsAppend | backend/app/services/user_service.py:235-249 | the user's accepted paths come first, followed by the system roots whose raw strings the user's paths did not already take |
| UserService.EffectiveRoots | backend/app/services/user_service.py:235-249 | the loop over the combined list computes exactly the roots of the specification |
| UserService.RootsMembers | backend/app/services/user_service.py:239-245 | a root is produced exactly when some entry not already taken is non-empty, resolves, and resolves to that existing directory |
| UserService.EffectiveRootsFacts | backend/app/services/user_service.py:228-249 | the user's roots come before the system roots; a path is an effective root exactly when some accepted entry resolves to it; every effective root is an existing directory |
| UserService.RootsRepeatResolved | backend/app/services/user_service.py:240-245 | the loop is keyed on the raw string, so "/a" and "/a/" both contribute the directory "/a", which then appears twice |
| UserService.AcceptedResolved | backend/app/services/user_service.py:239-245 | there are no more resolved forms than entries |
| UserService.AcceptedResolvedMembers | backend/app/services/user_service.py:239-245 | a path is among the resolved forms exactly when some accepted entry resolves to it |
| UserService.DistinctRootsFacts | backend/app/services/user_service.py:234-249 | deduplicating on the resolved path gives each root once, and exactly the same roots as the loop, each an existing directory |
| UserService.PathService.constructor | backend/app/services/user_service.py:21-39 | no rows, no cache entries and no users at the start |
| UserService.PathService.GetUserPaths | backend/app/services/user_service.py:59-81 | a cached list is returned and the cache left alone; otherwise the table's list is returned and cached; either way it is the user's stored list, and the table does not change |
| UserService.PathService.SetUserPaths | backend/app/services/user_service.py:83-117 | the user is created; the normalized list replaces the user's rows, is cached and is returned |
| UserService.PathService.AddUserPath | backend/app/services/user_service.py:119-154 | an invalid path changes nothing and answers false; the answer is true exactly when the normalized path is valid and not yet stored, and then it is appended to the user's rows and the cached list is dropped; otherwise nothing changes |
| UserService.PathService.GetEffectiveAllowedRoots | backend/app/services/user_service.py:217-249 | the roots are those of the user's stored paths followed by the system roots, and the table does not change |
| UserService.ReplaceKeepsCoherent | backend/app/services/user_service.py:103-109 | replacing a user's rows by a list without duplicates and caching that list keeps the cache equal to the table |
| UserService.AppendKeepsCoherent | backend/app/services/user_service.py:140-146 | appending a new path and dropping the user's cache entry keeps the cache equal to the table |
| UserService.AppendKeepsDistinct | backend/app/services/user_service.py:140 | appending a path the user does not have keeps the user's rows free of duplicates |
| Validators.GetAllowedRoots | backend/app/core/tools/validators.py:20-48 | the roots are "/", the working directory when it resolves, the resolved non-blank entries of AGENT_ALLOWED_ROOTS and the runtime roots, in that order, each kept at its first occurrence |
| Validators.CollectEnvRoots | backend/app/core/tools/validators.py:28-36 | the loop over the environment's entries keeps, in order, the resolved form of every entry that is non-blank after stripping and resolves |
| Validators.ReadEntry | backend/app/core/tools/validators.py:30-36 | one entry adds nothing when it is blank after stripping or does not resolve, and otherwise exactly its resolved path |
| Validators.Unique | backend/app/core/tools/validators.py:40-48 | the loop with its seen set keeps exactly the first occurrence of each root, in order |
| Validators.AllowedRoots | backend/app/core/tools/validators.py:20-48 | the allowed roots are distinct, start with "/", and are exactly the collected candidates |
| Validators.EnvAndRuntimeAllowed | backend/app/core/tools/validators.py:27-39 | every runtime root and every resolved environment entry is an allowed root |
| Validators.IsPathAllowed | backend/app/core/tools/validators.py:67-71 | a path is allowed exactly when some root equals it or is one of its parents; the copy at src/agent/tools/validators.py:17-21 is the same code |
| Validators.AllowedByMember | backend/app/core/tools/validators.py:67-71 | a root anywhere in the list that contains the path allows it |
| Validators.EveryAbsolutePathAllowed | backend/app/core/tools/validators.py:9-12 | since "/" is always a root, every absolute path passes the check |
| Validators.EnsurePathAllowed | backend/app/core/tools/validators.py:74-76 | nothing is raised exactly when the path is allowed; otherwise the ValueError says "Path is not allowed"; the copy at src/agent/tools/validators.py:24-26 is the same code |
| Validators.HomeRootsAllowIffHome | src/agent/tools/validators.py:4-21 | with the home directory and its Desktop, Documents and Downloads folders as roots, a path is allowed exactly when it is the home directory or lies under it |
| Validators.OutsideHomeRejected | src/agent/tools/validators.py:24-26 | a path outside the home directory is refused with "Path is not allowed" |
| Paths.Parents | backend/app/core/tools/validators.py:69 | a path's parents are its proper prefixes, nearest first, one per component |
| Paths.InParents | backend/app/core/tools/validators.py:69 | a root is among a path's parents exactly when it is a proper ancestor of that path |
| Paths.WithinIff | backend/app/core/tools/validators.py:69 | a root equals a path or is among its parents exactly when both are absolute or both relative and the root's components begin the path's |
| Paths.WithinRoot | backend/app/core/tools/validators.py:11 | "/" contains every absolute path |
| Paths.WithinTrans | backend/app/core/tools/validators.py:69 | containment is transitive |
| Paths.Name | backend/app/services/file_service.py:206 | the last component of a path is empty or a proper component |
| Paths.Suffix | backend/app/services/file_service.py:216 | a non-empty suffix is a final dot and the characters after it, holds at least one of them, contains no further dot and is not the whole name |
| Paths.NoDotNoSuffix | backend/app/services/file_service.py:216 | a name without a dot has no suffix |
| Paths.NameOfComponent | backend/app/services/file_service.py:206 | a single proper component is its own last component |
| Paths.SuffixAt | backend/app/services/file_service.py:216 | the suffix starts at the last dot when that dot is neither first nor last |
| Paths.ParseText | backend/app/services/file_service.py:237 | printing a path made of proper components and parsing the text gives the path back |
| Config.Defaults | backend/app/config.py:31-48 | by default no API key or OpenRouter endpoint is set, the OpenAI base URL is "https://api.openai.com" and four models are allowed |
| Config.EffectiveLlmConfig | backend/app/config.py:86-108 | model, timeout and tool-turn limit always come from the OpenAI settings and the base URL is never empty; when OpenRouter is chosen its key and URL are used; otherwise the OpenAI key and base URL, falling back to the default URL when that is empty |
| Config.EndpointChoice | backend/app/config.py:89-108 | an OpenAI key with its own non-default base URL wins over OpenRouter; without both OpenRouter settings the OpenAI key is used; the defaults give the OpenAI endpoint with gpt-4o-mini, 60 seconds and 8 tool turns |
| Config.DefaultModels | backend/app/config.py:43-48 | with the defaults a model is allowed exactly when it is one of the four listed names |
| Config.RawRoots | backend/app/config.py:116-118 | the combined list starts with all the list-valued roots, and is exactly them when the colon-separated variable is empty |
| Config.GetAllowedRoots | backend/app/config.py:114-119 | there are no more roots than raw entries |
| Config.AllowedRootsFacts | backend/app/config.py:114-119 | the roots are the stripped non-blank configured roots followed by the stripped non-blank colon-separated entries; each is non-empty and stripped, comes from some raw entry, and every non-blank raw entry contributes its stripped form |
| MachineId.HexDigit | backend/app/core/machine_id.py:141 | every value below 16 gives a lowercase hex digit |
| MachineId.DigitValue | backend/app/core/machine_id.py:141 | a lowercase hex digit has a value below 16 and that value gives the digit back |
| MachineId.Hex | backend/app/core/machine_id.py:141 | the unpadded hex text of a number is non-empty and all lowercase hex digits |
| MachineId.Pow16 | backend/app/core/machine_id.py:141 | a power of 16 is at least 1 |
| MachineId.Zeros | backend/app/core/machine_id.py:141 | the padding is the requested number of "0" digits |
| MachineId.Padded | backend/app/core/machine_id.py:141 | the zero-padded text is hex and at least as wide as asked |
| MachineId.HexValueHex | backend/app/core/machine_id.py:141 | reading the hex text of a number gives the number back |
| MachineId.HexValueZeros | backend/app/core/machine_id.py:141 | leading zeros do not change a hex value |
| MachineId.ZerosValue | backend/app/core/machine_id.py:141 | a run of zeros is worth 0 |
| MachineId.HexLength | backend/app/core/machine_id.py:141 | a number below 16 to the power w needs at most w digits |
| MachineId.PaddedValue | backend/app/core/machine_id.py:141 | the padded text reads back as the number |
| MachineId.HexUnique | backend/app/core/machine_id.py:141 | two hex texts of one length and one value are equal |
| MachineId.Pairs | backend/app/core/machine_id.py:142 | the twelve digits are cut into six two-digit pairs |
| MachineId.NoColons | backend/app/core/machine_id.py:142 | removing colons does not lengthen a text |
| MachineId.NoColonsAppend | backend/app/core/machine_id.py:142 | removing colons distributes over concatenation |
| MachineId.NoColonsOfHex | backend/app/core/machine_id.py:142 | hex digits contain no colons |
| MachineId.PairsText | backend/app/core/machine_id.py:142 | removing the colons from the joined pairs gives the digits back |
| MachineId.PairsCons | backend/app/core/machine_id.py:142 | the joined pairs are the first pair, a colon and the joined rest |
| MachineId.NoColonsSplice | backend/app/core/machine_id.py:142 | removing colons from a colon-free text, a colon and a rest keeps the text and cleans the rest |
| MachineId.PairsLength | backend/app/core/machine_id.py:142 | six joined pairs are 17 characters long |
| MachineId.MacRoundTrip | backend/app/core/machine_id.py:141-142 | every 48-bit node number renders as 12 digits in a 17-character colon-separated text that parses back to the number |
| MachineId.Twelve | backend/app/core/machine_id.py:141 | 16 to the power 12 is the 48-bit limit |
| MachineId.UniformText | backend/app/core/machine_id.py:142 | twelve equal digits give six equal pairs joined by colons |
| MachineId.RejectedTexts | backend/app/core/machine_id.py:145 | all-zero and all-f digits render as "00:00:00:00:00:00" and "ff:ff:ff:ff:ff:ff" |
| MachineId.UniformLiteral | backend/app/core/machine_id.py:145 | the six equal pairs are the literal colon-separated text |
| MachineId.AllFValue | backend/app/core/machine_id.py:145 | k digits "f" are worth 16 to the power k minus 1 |
| MachineId.MacRejection | backend/app/core/machine_id.py:136-151 | a node number gives no MAC address exactly when it is 0 or 2 to the power 48 minus 1, and an accepted address parses back to the node number |
| MachineId.EdgePadding | backend/app/core/machine_id.py:141-145 | node 0 pads to twelve "0" and the largest node to twelve "f" |
| MachineId.HexDigest | backend/app/core/machine_id.py:118 | the hex digest has two lowercase hex digits per byte |
| MachineId.ReadCache | backend/app/core/machine_id.py:272-296 | a cached identifier is the file's stripped text, from an existing file, and passes the check of 64 lowercase hex characters; every existing file whose stripped text passes is accepted |
| MachineId.DigestIsId | backend/app/core/machine_id.py:118 | every SHA-256 hex digest passes the cache check and is read back from the cache as written |
| MachineId.Texts | backend/app/core/machine_id.py:87-114 | one "tag:value" text per feature, in order |
| MachineId.OrderWith | backend/app/core/machine_id.py:82-114 | whatever the MAC address, there are one to four features, their tags in the order mac, serial or board, uuid, host; the random one appears exactly when nothing was found; a host name comes last |
| MachineId.FeaturesOrder | backend/app/core/machine_id.py:82-115 | one to four features in the order mac, serial or board, uuid, host; the random one exactly when nothing was found, and then alone; a non-empty host name comes last |
| MachineId.InFound | backend/app/core/machine_id.py:86-109 | a probe contributes its feature exactly when its value is present and non-empty |
| MachineId.SourcesWith | backend/app/core/machine_id.py:85-109 | each feature comes from its own probe: the MAC when present, the serial only on Darwin, the board only on Linux, the machine UUID and the host name when non-empty |
| MachineId.FeatureSources | backend/app/core/machine_id.py:85-109 | a mac feature appears exactly when the node number gives an accepted address, and the others exactly as their probes allow |
| MachineId.MacNonEmpty | backend/app/core/machine_id.py:145-146 | an accepted MAC address is never empty |
| MachineId.TextsSnoc | backend/app/core/machine_id.py:87-114 | appending a feature appends its text |
| MachineId.CollectFeatures | backend/app/core/machine_id.py:82-115 | the appending steps build exactly the texts of the specified features |
| MachineId.GenerateMachineId | backend/app/core/machine_id.py:76-126 | the identifier is the hex SHA-256 of the feature texts joined by "|" and always passes the cache check |
| MachineId.GeneratedIdStable | backend/app/core/machine_id.py:111-118 | two reports that differ only in the random UUID give one identifier once any feature was found; with none, the identifier hashes "random:" and the random hex |
| MachineId.MachineIdStore.constructor | backend/app/core/machine_id.py:42-43 | the store holds the given cache file |
| MachineId.MachineIdStore.GetMachineId | backend/app/core/machine_id.py:46-73 | the identifier always passes the check; a valid cached one is returned and the file left alone; otherwise a new one is generated and saved when the file can be written; after a cache hit or a save, the cache holds the identifier returned |
| MachineId.MachineIdStore.ClearCache | backend/app/core/machine_id.py:326-344 | true exactly when a cache file existed; afterwards there is none |
| MachineId.MacAddress | backend/app/core/machine_id.py:129-151 | an address found is never empty, all zeros or all ones, and for a 48-bit node it is 17 characters that parse back to the node |

## Left out

- The wake-word gate, the end-of-speech detector, gapless playback and the speech recognition and synthesis websockets: these are threads, queues and the vendor SDK, not sequential logic.
- Redis mode of the cache manager, SQLAlchemy sessions, Celery workers and the FastAPI routers. A table is a map or a sequence of rows, and a query is represented by the rows it returns.
- Database order: rows come back in insertion order, which is the order of their `created_at` timestamps.
- Exceptions other than the ones the model names. The endpoints' generic `except Exception` answers are not modelled.
- Subprocesses (`CommandRunner`, `grep`, `lsof`, `kill`, `ioreg`, `wmic` and the like), `shutil.which`, `Path.exists`/`is_dir`/`resolve`, `os.walk`, `Path.iterdir`, file reading and writing, `chmod`, PDF/Word/Excel extraction and `csv.DictReader`. Each is a parameter giving its result.
- Parsing the output of `ioreg`, `wmic` and the Linux machine-id files in machine_id.py: the probes are parameters that give the parsed values.
- `json.loads`/`json.dumps`, SHA-256, `uuid4()`, `random.random()`, the wall clock, `time.sleep` and `asyncio.sleep`: all of them are parameters.
- General regular expressions and `fnmatch`. Only the classes the code uses are modelled: the sentence and clause marks, `[A-Za-z0-9_-]`, the UUID groups, `\w` as a parameter class, and the CJK range. Glob patterns are restricted to `*` and `?`.
- `textwrap.dedent` in the prompt builders: it is taken as inserting each context unchanged, which it does for contexts on a single line.
- Floating point: averages, uptimes and ratios are exact reals or whole milliseconds; the consolidator's monthly decay `int(days / 30 * 0.1)` is the integer `days / 300`; `_cosine_similarity`, embeddings and the float CPU sort of the process tool are not modelled.
- Case folding: `lower()` and `upper()` act on ASCII letters only.
- The TTL of cached sessions and session timestamps in session_service.py; `list_sessions` pagination there is not modelled either, because it is a database query with offset and limit.
- `get_or_create_user` and `delete_user` of user_service.py: they are database plumbing without logic of their own.
- `JsonFormatterTool` and `ReadFileTool`, the network, system, app, media, productivity and git tools, and every other tool body that is only a subprocess or library call.
- `generate_session_summary` of the chat service and the CLI system prompt: both only forward text to the model.
- The regular expressions of `MetricsMiddleware._normalize_path` and of the log-tail filter: path normalisation is a parameter of the middleware.
- Three defects in files outside this model: `ChatService` is built with five arguments but takes four (backend/app/dependencies.py); the consolidation endpoint reads `tasks_completed` and `tasks_removed`, which the consolidator never reports; the endpoint that updates tasks calls `update_task` without `user_id` (backend/app/api/v1/memories.py).
- TtsService.TextSegmenter.constructor: requires `max_length >= 1`. With `max_length == 0` a forced cut ends at position 0 and `add_text` never returns, so the model excludes that case.
- MemoryExtractor.TagAll: requires every item to be a dict, since `_add_metadata` assigns keys into each item and a non-dict item would raise.
- ServerApp.UserStore.EnsureSession: requires the user to be present; every caller runs `get_or_create_user` first.
- SessionService.Service.CreateSession: requires the fresh id to be unused, as a `uuid4()` value is in practice.
- MachineId.MachineIdStore.ClearCache: does not model a failing unlink (the source then returns False and keeps the file).
- DocumentSummary.BatchExecute: reports come in input order. The source collects them with `as_completed`, whose order depends on thread timing.
- DocumentSummary.BatchExecute: the `max_workers` argument is not modelled. The source converts it with `int(...)` before any check, so a value that is not a number raises out of `execute`; a value of 0 or less makes `ThreadPoolExecutor` raise inside the `try`, and the answer is then "批量总结失败: " with the error text.
- Message rows (`MessageRow` in repositories.dfy) keep only their id, role and content. The `tool_calls`, `tool_call_results`, `message_metadata` and `created_at` columns are not modelled, as no modelled operation reads them; the session id is implied by the list a row is in.
- An entry of `exc.errors()` (`ValidationError` in error_handler.dfy) keeps only `loc` and `msg`. Pydantic's `type`, `input` and `ctx` fields are dropped, so the `details` list of the 422 answer is not modelled beyond those two.
- MemoryConsolidator.Consolidator.ConsolidateAll: the step that raised is taken to leave nothing behind. In the source, the changes it made before raising stay pending in the shared database session, and a later user's commit may write them.
- Py.ParseInt: only the ASCII digits `0` to `9` are read. Python's `int()` also accepts every other Unicode decimal digit (`int("١٢") == 12`, `int("１２") == 12`), which the model refuses as not a number.
- CacheManager.CountRejected: a stored text of non-ASCII decimal digits counts as refused here, while `int()` in the source parses it; see the `Py.ParseInt` line.
- CacheManager.IncrementRejectsText: "without any digit" means without an ASCII digit, so a value made of other Unicode decimal digits returns None here, while the source increments it.
- CacheManager.MemoryCache.Increment: a stored value of non-ASCII decimal digits returns None in the model, while the source's `int()` parses it and increments.
- ChatService.ProcessChat: the model sends the corrected history window `Prompt`, the last ten messages read after the user's message is saved. The source (backend/app/services/chat_service.py:72-116) sends `PromptAsWritten`: the window read before the save, cut by `[:-1]`. That as-written prompt is modelled and its loss of the newest earlier message is proved (see "## Findings"), but `ProcessChat` does not send it.
- ChatService.ChatReply: states the prompt sent as the corrected `Prompt`, not the source's `PromptAsWritten`, for the same reason.

## Findings

| source | as written | input that shows it | evidently intended | confidence | as-written member | corrected member |
|---|---|---|---|---|---|---|
| backend/app/utils/security.py:49-54 | `len(user_id) > 100` at :49, then `re.match(r'^[a-zA-Z0-9_-]+$', user_id)` at :53-54: Python's `$` also matches before a final newline | `"alice\n"` is accepted as a user id | only ids made entirely of the allowed characters are accepted | not executed | Security.UserIdTrailingNewline | Security.ValidateUserId |
| backend/app/utils/security.py:67-68 | the UUID pattern ends in `$` in the same way | any valid session id followed by `"\n"` is accepted | only the 36-character UUID text is accepted | not executed | Security.SessionIdTrailingNewline | Security.ValidateSessionId |
| backend/app/services/file_service.py:240 | `delete_file` tests containment with `str(path.resolve()).startswith(str(self.upload_dir.resolve()))`, a text prefix test on the resolved paths | upload directory "/srv/up" and path "/srv/up2/x" | only paths inside the upload directory may be deleted | not executed | FileService.DeleteOutsideUploadDir | FileService.DeleteFile |
| backend/app/services/memory_manager.py:454-476 | a new relation row is built with `metadata=metadata` (:466), but `add_relation` names its parameter `extra_metadata`, so `metadata` is not defined there | any relation not yet stored | the new relation is stored | not executed | MemoryService.NewRelationRaises | MemoryService.PutRelation |
| backend/app/services/memory_consolidator.py:287 | duplicates are keyed by the text `f"{category}:{key}"` | preferences ("a:b", "c") and ("a", "b:c") | duplicates are rows with the same (category, key) pair | not executed | MemoryConsolidator.KeyStringCollision | MemoryConsolidator.DeletedIdsMembers |
| backend/app/services/chat_service.py:284 | the history is read before the new message is saved and then cut with `[:-1]` | an exchange "hi" then "hello", then a new message | the model sees the latest earlier messages, the assistant's last reply included | not executed | ChatService.AsWrittenLosesReply | ChatService.PromptKeepsReply |
| backend/app/services/memory_manager.py:369-383 | `_find_similar_task` ends in `scalar_one_or_none()`, which raises when two rows match | a completed task and a new task with the same title | the newest task with the title is found | not executed | MemoryService.SimilarRaisesOnSecondTask | MemoryService.Similar |
| backend/app/services/memory_extractor.py:124-132 | the chat completion, a dict, is passed to `_parse_extraction_response`, which calls `.strip()` on it | any conversation and any completion | the reply text of the completion is parsed | not executed | MemoryExtractor.ExtractionAlwaysEmpty | MemoryExtractor.ExtractionRecoversItems |
| backend/agent/tools/developer/scripts.py:51-54 | with a working directory the tool calls `CommandRunner(timeout_s=120, cwd=str(wd_path))`, and the constructor takes no `cwd` | an allowed script and an allowed working directory | the script runs in that directory | not executed | DeveloperScripts.WorkingDirectoryNeverRuns | DeveloperScripts.RunScript |
| backend/agent/prompts/system_prompts.py:161 | the custom-instruction heading is "## 我自定义指令" | the test's instructions "请简洁回答" | the heading "用户自定义指令" that backend/tests/test_mac_agent.py:176 checks for | not executed | SystemPrompts.CustomHeadingMissesTest | SystemPrompts.CustomHeadingMeetsTest |
