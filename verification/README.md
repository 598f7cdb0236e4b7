# ai-companion-backend in Dafny

A model of the memory and personality core of an AI companion backend. The
backend is a FastAPI service: it remembers what a user tells it and links
those memories into a graph. It tracks the user's personality scores,
guides the user through multistep therapy flows and improv forms, and keeps
credits and a conversation history per user. The model keeps the logic
that decides what is stored, found, linked and answered. It drops the
language-model agents, the Supabase client, the embedding service and the
web layer around them. Each of those becomes a parameter of the operation
that uses it.

| file | module | models |
|---|---|---|
| wrappers.dfy | Wrappers | `Option`, `Result`, and the Python exceptions the core raises |
| py_values.dfy | PyValues | JSON-like Python values, truthiness, `in`, `str.split`/`join`, upper/lower case |
| iso_date.dfy | IsoDate | naive `datetime`: `isoformat`, `fromisoformat`, `strftime("%b %d, %Y")`, day arithmetic |
| sorting.dfy | Sorting | Python's stable `sorted(..., key, reverse)` on real keys |
| match_filter.dfy | MatchFilter | the chainable `MemoryFilter` (`app/utils/match_filter.py`) |
| memory_store.dfy | VectorStore | the `user_knowledge` / `user_slang` tables (`app/supabase/pgvector.py`) |
| memory_extraction.dfy | MemoryExtraction | memory ingestion and the canned memory queries (`app/function/memory_extraction.py`) |
| personal_memory.dfy | PersonalMemory | the personal-agent memory service (`app/personal_agents/memory_extraction.py`) |
| relation_types.dfy | RelationTypes | `get_relation_type` (`app/supabase/knowledge_edges.py`) |
| knowledge_edges.dfy | KnowledgeEdges | edge creation and the one-hop neighbour query (`app/supabase/knowledge_edges.py`) |
| knowledge_graph.dfy | KnowledgeGraph | the MCP memory server's `KnowledgeGraphManager` |
| flow_table.dfy, multistep.dfy | MultistepFlows, Multistep | the therapy flow table and `MultistepService` |
| context_store.dfy | UserContext | the websocket per-user context store |
| form_context.dfy, form_orchestration.dfy | FormContextStore, ImprovForms | the improv form filler's context and orchestration |
| mbti.dfy, ocean.dfy | MbtiAnalysis, OceanAnalysis | rolling personality averages, type letters, trait reports, style prompts |
| profiles.dfy | Profiles | the credit columns of `profiles` |
| conversation_history.dfy | ConversationHistory | the per-user stored conversation |
| personality_prompt.dfy | PersonalityPrompt | `get_personality_prompt` |

Conventions used throughout:
- A Python exception is an `Err` of `Result`.
- A database call that may raise is chosen by a boolean or an index (`ok`, `writeOk`, `failAt`) saying whether, or at which call, the client raises.
- A table is a `map` or a `seq` field of a class whose methods update it, or a value the functions take and return.
- An agent's answer is a `Result` parameter: `Err` when the run fails.
- `cosine_similarity` is an uninterpreted function parameter `sim`.
- The current time is a parameter `now`.

## Model

| member | source | states |
|---|---|---|
| UserContext.Context | app/websockets/context/store.py:10-12 | `store.get(user_id, {})`: the user's map, or the empty map for an unknown user |
| UserContext.Lookup | app/function/improv_form_filler/form_context.py:15-17 | a key reads as a value exactly when the user and the key are both present, and then as the stored value |
| UserContext.UpdatedReadsBack | app/websockets/context/store.py:14-16 | after `setdefault(user_id, {})[key] = value` the key reads back as the value, every other user/key reads as before, and the user is now known |
| UserContext.UpdatedTwice | app/function/improv_form_filler/form_context.py:19-21 | of two writes to one key the last wins |
| UserContext.WithoutUserEffect | app/websockets/context/store.py:18-20 | `pop(user_id, None)` forgets every key of that user and no other user's, and is a no-op for an absent user |
| UserContext.WithoutKeyEffect | app/function/improv_form_filler/form_context.py:27-31 | removing one key removes only that key of that user and keeps the user entry |
| UserContext.ReplacedEffect | app/function/improv_form_filler/form_context.py:37-40 | `replace_context` behaves as `update_context` for a known user and changes nothing for an unknown one |
| UserContext.ContextStore.constructor | app/websockets/context/store.py:7 | the shared store starts empty |
| UserContext.ContextStore.UpdateContext | app/websockets/context/store.py:14-16 | the new store is the old one updated at (user, key) |
| UserContext.ContextStore.DeleteContext | app/websockets/context/store.py:18-20 | the new store is the old one without the user |
| UserContext.ContextStore.GetContext | app/websockets/context/store.py:10-12 | `{}` for an unknown user; otherwise exactly the user's stored dict, a key present iff it is stored for the user |
| UserContext.ContextStore.DeleteContextKey | app/psychology/multistep_service.py:5 | the `delete_context_key` the multistep service imports: the new store lacks that one key of that user |
| UserContext.ImportFrom | app/psychology/multistep_service.py:5 | `from m import names` succeeds exactly when the module defines every name, and raises ImportError otherwise |
| Multistep.ServiceImportAsWritten | app/psychology/multistep_service.py:5 | the import line raises ImportError against the store as written, and succeeds once the store defines `delete_context_key` |
| UserContext.ContextStore.DumpContext | app/websockets/context/store.py:22-24 | the copy holds exactly the user's keys, each with its stored value |
| FormContextStore.FormContext.constructor | app/function/improv_form_filler/form_context.py:7-9 | the store starts empty |
| FormContextStore.FormContext.GetContext | app/function/improv_form_filler/form_context.py:11-13 | `{}` for an unknown user; otherwise exactly the user's stored dict, every key reading as stored |
| FormContextStore.FormContext.GetContextKey | app/function/improv_form_filler/form_context.py:15-17 | None exactly when the user or the key is unknown, otherwise the stored value |
| FormContextStore.FormContext.UpdateContext | app/function/improv_form_filler/form_context.py:19-21 | the new store is the old one updated at (user, key) |
| FormContextStore.FormContext.DeleteContext | app/function/improv_form_filler/form_context.py:23-25 | the new store is the old one without the user |
| FormContextStore.FormContext.DeleteContextKey | app/function/improv_form_filler/form_context.py:27-31 | the new store lacks only that key of that user |
| FormContextStore.FormContext.DumpContext | app/function/improv_form_filler/form_context.py:33-35 | the copy equals what `get_context` returns |
| FormContextStore.FormContext.ReplaceContext | app/function/improv_form_filler/form_context.py:37-40 | writes the key only when the user already has an entry |
| MatchFilter.GetValue | app/utils/match_filter.py:81-88 | `metadata[key]` when the record's metadata dict holds the key, else the top-level value, else the default; a metadata of scalar type raises TypeError |
| MatchFilter.In | app/utils/match_filter.py:29 | Python's `in`: element test on a list, key test on a dict, substring test on a string, TypeError on a scalar |
| MatchFilter.Compare | app/utils/match_filter.py:90-106 | False for a None value; two date strings compare as instants; a date against a non-date raises TypeError; other pairs compare as Python orders plain values (numbers by value, strings by code point, lists element by element), and any other pairing raises TypeError |
| MatchFilter.ListCmpMeaning | app/utils/match_filter.py:102-105 | two lists compare by their first pair of elements that are not `==`, and by length when one is a prefix of the other |
| MatchFilter.CompareWithNumber | app/utils/match_filter.py:102-105 | a comparison that passes against a numeric threshold means the value is a number on the requested side of it |
| MatchFilter.CompareWithDate | app/utils/match_filter.py:97-105 | a comparison that passes against an ISO date threshold means the value is a parseable date on the requested side of it |
| MatchFilter.CompareTotal | app/utils/match_filter.py:102-105 | when `>=` evaluates so does `<=`, and for a non-None value at least one of them holds |
| MatchFilter.PyEqString | app/utils/match_filter.py:13 | a value `==` to a string is that same string |
| MatchFilter.AnyIn | app/utils/match_filter.py:38 | `any(item in field ...)` is False exactly when no item is in the field, and True only when some item is |
| MatchFilter.AnyInDecided | app/utils/match_filter.py:38 | when every `item in field` test is decided, `any(...)` is decided too, and True exactly when some item is in the field |
| MatchFilter.AllIn | app/utils/match_filter.py:42 | `all(item in field ...)` is True exactly when every item is in the field |
| MatchFilter.MissingListField | app/utils/match_filter.py:28-43 | a field absent from the record reads as `[]`: `contains` and `contains_any` fail, `contains_all` passes only for no items |
| MatchFilter.AllHold | app/utils/match_filter.py:61 | True exactly when every AND-condition holds |
| MatchFilter.AllHoldCons | app/utils/match_filter.py:61 | `all(...)` evaluates the first condition first and stops at the first False or raise |
| MatchFilter.AnyHolds | app/utils/match_filter.py:62 | False exactly when every OR-condition is False, and True only when one holds |
| MatchFilter.Keep | app/utils/match_filter.py:59-63 | a record is kept when all AND-conditions hold, and only if they all hold or some OR-condition does; without OR-conditions it is the AND test |
| MatchFilter.FilterKept | app/utils/match_filter.py:59-63 | succeeds exactly when every record evaluates; the result is an order-preserving subsequence holding exactly the kept records |
| MatchFilter.FilterKeptByPredicate | app/utils/match_filter.py:59-63 | when the verdict on every record that evaluates is a predicate, the comprehension yields exactly the input filtered by that predicate, in input order |
| MatchFilter.NoConditionsKeepsAll | app/utils/match_filter.py:59-63 | with no AND-conditions every record is kept, whatever the OR-conditions |
| MatchFilter.SortKeyOf | app/utils/match_filter.py:65-77 | the date key is `datetime.min` for a falsy timestamp and the parsed instant for a date string, missing otherwise; the similarity key is 0.0 when absent, the stored number, or for a string a rank that orders strings as Python does, missing for any other value |
| MatchFilter.RankOrder | app/utils/match_filter.py:72-77 | the rank given to a string orders strings exactly as Python compares them |
| MatchFilter.KeyAll | app/utils/match_filter.py:67-76 | succeeds exactly when every record has a key, pairing each record with its key in order |
| MatchFilter.SortRecords | app/utils/match_filter.py:65-77 | the result is a permutation of the input ordered by key (reversed for "desc"); by date it fails exactly when some timestamp is a non-empty non-date; by similarity it fails exactly when two or more records have similarities that are neither all numbers nor all strings |
| MatchFilter.SortByTextSimilarity | app/utils/match_filter.py:72-77 | when every similarity is a string, the sorted records are in Python's string order of their similarities (reversed for "desc") |
| MatchFilter.SortedRecords | app/utils/match_filter.py:67-77 | the insertion sort over keyed records yields a permutation in key order |
| MatchFilter.MemoryFilter.constructor | app/utils/match_filter.py:5-9 | no conditions, no sort order, sort key `timestamp` |
| MatchFilter.MemoryFilter.AddCondition | app/utils/match_filter.py:13-14 | appends exactly one AND-condition, returns the filter itself and changes nothing else |
| MatchFilter.MemoryFilter.AddOrCondition | app/utils/match_filter.py:17-18 | appends exactly one OR-condition, returns the filter itself and changes nothing else |
| MatchFilter.MemoryFilter.Match | app/utils/match_filter.py:12-14 | appends one equality AND-condition |
| MatchFilter.MemoryFilter.OrMatch | app/utils/match_filter.py:16-18 | appends one equality OR-condition |
| MatchFilter.MemoryFilter.GreaterThanOrEqual | app/utils/match_filter.py:20-22 | appends one `gte` AND-condition |
| MatchFilter.MemoryFilter.LessThanOrEqual | app/utils/match_filter.py:24-26 | appends one `lte` AND-condition |
| MatchFilter.MemoryFilter.Contains | app/utils/match_filter.py:28-30 | appends one membership AND-condition |
| MatchFilter.MemoryFilter.OrContains | app/utils/match_filter.py:32-34 | appends one membership OR-condition |
| MatchFilter.MemoryFilter.ContainsAny | app/utils/match_filter.py:36-39 | appends one any-of AND-condition |
| MatchFilter.MemoryFilter.ContainsAll | app/utils/match_filter.py:41-43 | appends one all-of AND-condition |
| MatchFilter.MemoryFilter.SortByDate | app/utils/match_filter.py:45-49 | ValueError and no change unless the order is "asc" or "desc"; never resets the sort key |
| MatchFilter.MemoryFilter.SortBySimilarity | app/utils/match_filter.py:51-56 | ValueError and no change for a bad order; otherwise sets the order and the `similarity` key |
| MatchFilter.MemoryFilter.Apply | app/utils/match_filter.py:58-79 | exactly the kept records; unsorted it is the comprehension itself, a subsequence of the input; sorted it is a permutation of the kept records in key order, and it fails exactly when the comprehension or the sort raises |
| Sorting.Sort | app/utils/match_filter.py:67-77 | the stable sort `sorted(..., reverse=...)` models: its output is ordered by key |
| Sorting.InsertAddsOne | app/utils/match_filter.py:67-77 | inserting into a sorted list adds exactly that element |
| Sorting.SortIsStable | app/utils/match_filter.py:67-77 | elements with equal keys keep their input order, as Python's sort does even with `reverse=True` |
| Sorting.SortOfSortedIsIdentity | app/utils/match_filter.py:67-77 | sorting an already ordered list changes nothing |
| Sorting.SortItemsPermutation | app/utils/match_filter.py:67-77 | the sorted items are a permutation of the input items |
| Sorting.SortOrdersItems | app/utils/match_filter.py:67-77 | when each key is a function of its item, the sorted items are ordered by that function |
| IsoDate.FormatParseRoundTrip | app/supabase/conversation_history.py:38-49 | `fromisoformat(isoformat(d)) == d` for every valid datetime |
| IsoDate.MinIsLeast | app/utils/match_filter.py:69 | `datetime.min` comes no later than any valid datetime |
| IsoDate.MinusDaysShiftsOrdinal | app/personal_agents/memory_extraction.py:100-102 | `now - timedelta(days=n)` moves the date back exactly n days and keeps the time of day |
| IsoDate.NextDayOrdinal | app/supabase/knowledge_edges.py:146-154 | the next calendar day is one day later |
| PyValues.SplitJoin | app/function/personality_prompt.py:38-43 | splitting a join of newline-free parts on the separator gives back the parts |
| PyValues.JoinFour | app/psychology/mbti_analysis.py:150-162 | joining four strings puts the separator between consecutive ones |
| KnowledgeGraph.FirstNamed | app/mcp/mcp/memory/knowledge_graph.py:63 | the `next(...)` lookup: None exactly when no entity has the name, otherwise the first index holding it |
| KnowledgeGraph.KnowledgeGraphManager.constructor | app/mcp/mcp/memory/knowledge_graph.py:30-31 | the cache starts with no entities and no relations |
| KnowledgeGraph.KnowledgeGraphManager.ReadGraph | app/mcp/mcp/memory/knowledge_graph.py:33-34 | `load_graph`/`read_graph` return the cached entities and relations |
| KnowledgeGraph.KnowledgeGraphManager.SaveGraph | app/mcp/mcp/memory/knowledge_graph.py:36-37 | the cache becomes the given graph |
| KnowledgeGraph.KnowledgeGraphManager.CreateEntities | app/mcp/mcp/memory/knowledge_graph.py:39-45 | returns the candidates whose name the cache lacked beforehand and appends exactly those; relations unchanged |
| KnowledgeGraph.KnowledgeGraphManager.CreateRelations | app/mcp/mcp/memory/knowledge_graph.py:47-58 | returns the candidates whose triple the cache lacked and appends exactly those; existing relations and all entities unchanged |
| KnowledgeGraph.KnowledgeGraphManager.AddObservations | app/mcp/mcp/memory/knowledge_graph.py:60-69 | the loop's entities and reports are those of the request-by-request specification, including where an unknown name stops it |
| KnowledgeGraph.KnowledgeGraphManager.DeleteEntities | app/mcp/mcp/memory/knowledge_graph.py:71-76 | keeps the entities whose name is not listed and the relations with neither endpoint listed |
| KnowledgeGraph.KnowledgeGraphManager.DeleteObservations | app/mcp/mcp/memory/knowledge_graph.py:78-85 | the entities after the loop are those of the deletion-by-deletion specification; relations unchanged |
| KnowledgeGraph.KnowledgeGraphManager.DeleteRelations | app/mcp/mcp/memory/knowledge_graph.py:87-96 | a relation survives exactly when it matches no listed triple, with every copy of it kept; survivors keep their order; entities unchanged |
| KnowledgeGraph.KnowledgeGraphManager.SearchNodes | app/mcp/mcp/memory/knowledge_graph.py:101-114 | exactly the entities whose lowered name, type or some observation contains the lowered query, and exactly the relations with both endpoints among them, each with all its copies and in order |
| KnowledgeGraph.KnowledgeGraphManager.OpenNodes | app/mcp/mcp/memory/knowledge_graph.py:116-123 | exactly the entities whose name is listed, and exactly the relations with both endpoints among them, each with all its copies and in order |
| KnowledgeGraph.NewEntitiesExactly | app/mcp/mcp/memory/knowledge_graph.py:40-43 | a candidate is returned exactly when its name was absent from the cache; input order is kept |
| KnowledgeGraph.BatchDuplicatesKept | app/mcp/mcp/memory/knowledge_graph.py:40-43 | two candidates with the same fresh name in one batch are both added |
| KnowledgeGraph.CreateEntitiesTwice | app/mcp/mcp/memory/knowledge_graph.py:39-45 | creating the same entities a second time adds nothing |
| KnowledgeGraph.CreateRelationsTwice | app/mcp/mcp/memory/knowledge_graph.py:47-58 | only triples the cache lacked are added, and creating the same relations again adds nothing |
| KnowledgeGraph.AddOneEffect | app/mcp/mcp/memory/knowledge_graph.py:62-68 | an unknown name raises ValueError; otherwise only the named entity changes, gaining and reporting exactly the contents it lacked, and it then holds every requested content |
| KnowledgeGraph.AddOneErrIff | app/mcp/mcp/memory/knowledge_graph.py:63-65 | a request fails exactly when its entity name is unknown |
| KnowledgeGraph.AddOneTwice | app/mcp/mcp/memory/knowledge_graph.py:66-67 | repeating a request adds and reports nothing |
| KnowledgeGraph.AddAllKeepsNames | app/mcp/mcp/memory/knowledge_graph.py:60-69 | adding observations never renames, adds or removes an entity |
| KnowledgeGraph.SameNamesSameLookup | app/mcp/mcp/memory/knowledge_graph.py:63 | entity lists with the same names answer the name lookup alike |
| KnowledgeGraph.AllNamedSnoc | app/mcp/mcp/memory/knowledge_graph.py:62-65 | every request names an entity exactly when the earlier ones do and the last one does |
| KnowledgeGraph.AddAllOkIff | app/mcp/mcp/memory/knowledge_graph.py:60-69 | `add_observations` succeeds exactly when every request names an existing entity |
| KnowledgeGraph.AddAllStopsAtError | app/mcp/mcp/memory/knowledge_graph.py:64-65 | once a request raises, the later requests change nothing, while the earlier ones stay applied |
| KnowledgeGraph.DropOneEffect | app/mcp/mcp/memory/knowledge_graph.py:79-85 | the named entity keeps exactly its unlisted observations and its name and type; other entities, and all of them for an unknown name, are unchanged |
| KnowledgeGraph.DeleteEntitiesKeepsClosed | app/mcp/mcp/memory/knowledge_graph.py:71-76 | after the cascade no entity or relation mentions a deleted name, and a graph whose relations joined its entities still does |
| KnowledgeGraph.InducedIsClosed | app/mcp/mcp/memory/knowledge_graph.py:109-113 | every relation returned by `search_nodes`/`open_nodes` has both endpoints among the returned entities |
| VectorStore.Find | app/supabase/pgvector.py:44-46 | the first row for (user, text), as `existing.data[0]`; None exactly when no row matches |
| VectorStore.UpsertEffect | app/supabase/pgvector.py:44-52 | a store leaves exactly one row for (user, text) with the new metadata and a count one higher (1 when new); every other row is unchanged; one row per (user, text) and unique ids are preserved |
| VectorStore.UpsertTwiceAddsOneRow | app/supabase/pgvector.py:78-84 | storing the same text twice adds at most one row |
| VectorStore.UserRows | app/supabase/pgvector.py:111 | exactly the user's rows, in table order |
| VectorStore.Without | app/supabase/pgvector.py:134 | exactly the rows that do not match both the user and the id |
| VectorStore.VectorTable.constructor | app/supabase/pgvector.py:36-52 | an empty table satisfying the invariant |
| VectorStore.VectorTable.Upsert | app/supabase/pgvector.py:37-52 | `store_user_knowledge`/`store_user_slang`: the table becomes the upserted table, or stays as it was when the database call raises; the invariant is kept |
| VectorStore.VectorTable.FindSimilar | app/supabase/pgvector.py:54-68 | "No knowledge stored" without calling the RPC when the user has no rows, "No similar knowledge" when the RPC returns nothing, otherwise exactly the RPC rows; for a user with rows an RPC error propagates unchanged |
| VectorStore.VectorTable.UserVectors | app/supabase/pgvector.py:105-115 | [] on error or a negative limit; otherwise exactly the user's first `limit` rows in table order (all of them when the limit allows) |
| VectorStore.VectorTable.Remove | app/supabase/pgvector.py:129-147 | deletes exactly the rows matching both user and id, keeping the others in order, and returns the success message; on error nothing changes and the error message is returned |
| VectorStore.ConsKeepsInvariant | app/supabase/pgvector.py:44-52 | a row with a fresh id and a fresh (user, text) can head a table satisfying the invariant |
| VectorStore.WithoutKeepsInvariant | app/supabase/pgvector.py:134 | deleting rows keeps one row per (user, text) and unique ids |
| VectorStore.WithoutIsSubsequence | app/supabase/pgvector.py:134 | deleting keeps the remaining rows in order |
| MemoryExtraction.StrList | app/function/memory_extraction.py:27 | a list of strings as the Python list value, element by element |
| MemoryExtraction.Strings | app/function/memory_extraction.py:27 | reading a list back yields strings equal to its elements |
| MemoryExtraction.StringsOfStrList | app/function/memory_extraction.py:27 | reading back a written string list gives the same list |
| MemoryExtraction.ModelDump | app/function/memory_extraction.py:23-35 | `model_dump()` has exactly the twelve declared fields as keys |
| MemoryExtraction.DumpFieldsText | app/function/memory_extraction.py:24-27 | the dump holds text, timestamp, sentiment score and topics as given |
| MemoryExtraction.DumpFieldsStyle | app/function/memory_extraction.py:28-30 | the dump holds intensity, importance, language style and the disclosure flag as given |
| MemoryExtraction.DumpFieldsFlags | app/function/memory_extraction.py:31-34 | the dump holds the recurring, boundary, ritual and self-awareness flags as given |
| MemoryExtraction.DumpRoundTrip | app/function/memory_extraction.py:68 | rebuilding a memory from its dump gives the same memory |
| MemoryExtraction.RelativeDate | app/function/memory_extraction.py:57-58 | `now - timedelta(days=days_ago)`: a valid date exactly that many days earlier at the same time of day; OverflowError otherwise |
| MemoryExtraction.VectorSearch | app/function/memory_extraction.py:113-123 | the RPC rows, or [] on any error |
| MemoryExtraction.FilterMemories | app/function/memory_extraction.py:126-133 | a prefix of the RPC rows with at most `limit` rows, all of them when they fit; an RPC error propagates |
| MemoryExtraction.KeptPassesAll | app/utils/match_filter.py:59-63 | a record kept by a filter with only AND-conditions passes each of them |
| MemoryExtraction.EqTrueVerdict | app/function/memory_extraction.py:264 | `match(key, True)` raises exactly when the field cannot be read, and otherwise passes exactly when the field is numerically 1 (True or 1) |
| MemoryExtraction.EqStringVerdict | app/function/memory_extraction.py:164 | `match(key, s)` raises exactly when the field cannot be read, and otherwise passes exactly when the field is the string s |
| MemoryExtraction.NumberVerdict | app/function/memory_extraction.py:231-265 | `greater_than_or_equal(key, t)` and `less_than_or_equal(key, t)` raise exactly when the field is neither None nor a number, and otherwise pass exactly when it is a number on that side of t |
| MemoryExtraction.DateVerdict | app/function/memory_extraction.py:196 | `less_than_or_equal("timestamp", now.isoformat())` raises exactly when the timestamp is neither None nor a date, and otherwise passes exactly when it is a date no later than now |
| MemoryExtraction.TopicsVerdict | app/function/memory_extraction.py:460 | `contains_any("topics", topics)` passes nothing for no topics; otherwise it raises exactly when the field is not a string, list or dict, and passes exactly when it holds one of the topics |
| MemoryExtraction.KeepOne | app/utils/match_filter.py:59-63 | a filter of one AND-condition keeps what that condition passes |
| MemoryExtraction.KeepCons | app/utils/match_filter.py:59-63 | a filter of several AND-conditions evaluates the first, and the rest only if it passed |
| MemoryExtraction.FilterVerdict | app/utils/match_filter.py:59-63 | when each record's verdict is known, the filter raises exactly when some record cannot be judged, and otherwise keeps exactly the records the verdict passes, in order |
| MemoryExtraction.MemoryExtractionService.constructor | app/function/memory_extraction.py:51-52 | the service holds the user id (and the shared knowledge table) |
| MemoryExtraction.MemoryExtractionService.StoreMemory | app/function/memory_extraction.py:84-110 | True with the (user, text) upsert of the dumped model applied, or False with the table unchanged when a database call raises |
| MemoryExtraction.MemoryExtractionService.ExtractMemoryAsWritten | app/function/memory_extraction.py:64-82 | as written `self.agent` is never set, so every call returns None |
| MemoryExtraction.MemoryExtractionService.ExtractMemory | app/function/memory_extraction.py:64-82 | None and no store when the agent fails or importance < 0.3; otherwise the memory with its timestamp replaced by `now` in ISO form, stored by the upsert, or returned with the table unchanged when the store fails |
| MemoryExtraction.MemoryExtractionService.EmotionalIntensity | app/function/memory_extraction.py:162-167 | raises exactly when some search result's `emotional_intensity` cannot be read; otherwise exactly the results filed under "high", in search order |
| MemoryExtraction.MemoryExtractionService.GetLatestMessages | app/function/memory_extraction.py:193-200 | raises exactly when some timestamp is neither None nor a date, or a kept result's top-level timestamp does not parse; otherwise a permutation of exactly the results dated no later than now, newest first |
| MemoryExtraction.LatestKept | app/function/memory_extraction.py:193-200 | the `lte("timestamp", now)` filter raises exactly on a timestamp that is neither None nor a date, and otherwise keeps exactly the results no later than now, in search order |
| MemoryExtraction.LatestSortFails | app/function/memory_extraction.py:193-200 | the newest-first sort of those results raises exactly when one of them has a top-level timestamp that does not parse |
| MemoryExtraction.MemoryExtractionService.EmotionalMomentum | app/function/memory_extraction.py:228-232 | raises exactly when some result's intensity cannot be read or, being "high", its sentiment is neither None nor a number; otherwise exactly the "high" results with sentiment ≤ -0.7, in search order |
| MemoryExtraction.MemoryExtractionService.ContextWeighted | app/function/memory_extraction.py:262-266 | raises exactly when some result's `disclosure` cannot be read or, for a disclosure, its importance is neither None nor a number; otherwise exactly the disclosures with importance ≥ 0.7, in search order |
| MemoryExtraction.MemoryExtractionService.MoodBasedLanguage | app/function/memory_extraction.py:295-298 | raises exactly when some result's `language_style` cannot be read; otherwise exactly the "poetic" results, in search order |
| MemoryExtraction.MemoryExtractionService.FieldQuery | app/function/memory_extraction.py:162-167 | the query both one-field searches share: raises exactly when some search result's field cannot be read; otherwise exactly the results whose field holds the given text, in search order |
| MemoryExtraction.MemoryExtractionService.MemorySurface | app/function/memory_extraction.py:327-332 | raises exactly when a field that `all` reaches cannot be evaluated; otherwise exactly the rituals of intensity "medium" with importance ≥ 0.7, in search order |
| MemoryExtraction.MemoryExtractionService.FlagQuery | app/function/memory_extraction.py:361-364 | raises exactly when some result's flag cannot be read; otherwise exactly the results with the flag set, in search order |
| MemoryExtraction.MemoryExtractionService.Rituals | app/function/memory_extraction.py:338-366 | raises exactly when some result's `ritual` cannot be read; otherwise exactly the results with `ritual` set, in search order |
| MemoryExtraction.MemoryExtractionService.Boundaries | app/function/memory_extraction.py:370-398 | raises exactly when some result's `boundary_discussion` cannot be read; otherwise exactly the results with it set, in search order |
| MemoryExtraction.MemoryExtractionService.SelfAwareness | app/function/memory_extraction.py:402-430 | raises exactly when some result's `self_awareness` cannot be read; otherwise exactly the results with it set, in search order |
| MemoryExtraction.MemoryExtractionService.Topics | app/function/memory_extraction.py:434-463 | [] for no topics; otherwise raises exactly when some result's topics field is not searchable, and else gives exactly the results whose topics hold one of the requested topics, in search order |
| MemoryExtraction.NothingPassesEmptyAny | app/utils/match_filter.py:36-39 | `contains_any` with no items keeps no record |
| PersonalMemory.ModelDump | app/personal_agents/memory_extraction.py:23-39 | the dump has the seven declared keys, with the metadata model as a nested dict |
| PersonalMemory.DumpKeepsFlags | app/personal_agents/memory_extraction.py:137 | each metadata flag and the language style survive in the nested `metadata` dict |
| PersonalMemory.RelativeDate | app/personal_agents/memory_extraction.py:100-102 | the ISO form of the date `days_ago` days before now with "Z" appended: it parses back to exactly that many days earlier at the same time of day; OverflowError outside the calendar |
| PersonalMemory.VectorSearch | app/personal_agents/memory_extraction.py:158-171 | the RPC rows, or [] on any error |
| PersonalMemory.FiltersIgnored | app/personal_agents/memory_extraction.py:158-171 | the search result does not depend on the filter dict, so every canned query returns plain similarity results |
| PersonalMemory.EmotionalMomentumFilter | app/personal_agents/memory_extraction.py:199-204 | the filter has timestamp ≥ start date, intensity "high" and sentiment ≤ -0.7; it fails exactly when the start date does |
| PersonalMemory.ContextWeightedFilter | app/personal_agents/memory_extraction.py:225-233 | the filter is an `$or` of disclosure, recurring theme and high intensity, plus the timestamp bound |
| PersonalMemory.PersonalMemoryService.constructor | app/personal_agents/memory_extraction.py:86-87 | the service holds the user id (and the shared knowledge table) |
| PersonalMemory.PersonalMemoryService.StoreMemory | app/personal_agents/memory_extraction.py:128-155 | True with the (user, text) upsert applied, the dump written as JSON text; False with the table unchanged when a database call raises |
| PersonalMemory.PersonalMemoryService.ExtractMemory | app/personal_agents/memory_extraction.py:108-126 | None and nothing stored when the agent fails or importance < 0.3; otherwise the memory stamped with `now`, stored by the upsert |
| PersonalMemory.PersonalMemoryService.EmotionalMomentum | app/personal_agents/memory_extraction.py:182-205 | the unfiltered similarity results; an error only when the start date overflows |
| PersonalMemory.PersonalMemoryService.ContextWeighted | app/personal_agents/memory_extraction.py:208-234 | the unfiltered similarity results; an error only when the start date overflows |
| KnowledgeEdges.Others | app/supabase/knowledge_edges.py:166-172 | the candidates are exactly the user's rows other than the source |
| KnowledgeEdges.Scored | app/supabase/knowledge_edges.py:177-184 | every scored candidate has a score ≥ 0.8 and a target other than the source; no more candidates than rows |
| KnowledgeEdges.TargetMeta | app/supabase/knowledge_edges.py:202-208 | a dict is used as is, JSON text decodes to the value it holds (a dict or not), any other non-text value becomes {}; text that is not JSON raises ValueError |
| KnowledgeEdges.EdgeStep | app/supabase/knowledge_edges.py:211-229 | an insert happens only for a triple not already present, carries the user, source, target and score, and is labelled by the classifier on the target's dict; a target decoded to a non-dict raises AttributeError in the classifier |
| KnowledgeEdges.BatchStopsAtError | app/supabase/knowledge_edges.py:164-232 | the first raise ends the whole batch; the edges inserted before it stay |
| KnowledgeEdges.BatchEdgesFromCandidates | app/supabase/knowledge_edges.py:195-229 | each inserted edge is for the user and the source, with a candidate's target and score and the classifier's labels for that target; at most one edge per candidate |
| KnowledgeEdges.BatchKeepsTriplesUnique | app/supabase/knowledge_edges.py:211-219 | a batch never inserts a (user, source, target) triple twice, so a table without duplicate triples stays without them |
| KnowledgeEdges.BatchOkCoversAll | app/supabase/knowledge_edges.py:195-229 | after a batch without errors every candidate's triple is in the table |
| KnowledgeEdges.BatchOnStoredAddsNothing | app/supabase/knowledge_edges.py:218-219 | a batch whose triples are all stored inserts nothing |
| KnowledgeEdges.RerunAddsNothing | app/supabase/knowledge_edges.py:163-232 | running the builder again on the same source and rows adds no edge, whatever the classifier |
| KnowledgeEdges.BatchScoresDescend | app/supabase/knowledge_edges.py:195 | edges are inserted in the order of the sorted candidates, so scores descend |
| KnowledgeEdges.CreatedEdges | app/supabase/knowledge_edges.py:163-232 | whatever the classifier, every inserted edge has score ≥ SIMILARITY_THRESHOLD (0.8), a target other than the source that is one of the user's rows, and that row's similarity as its score; at most `top_k` edges per call |
| KnowledgeEdges.CreatedEdgesNeverTimeLinked | app/supabase/knowledge_edges.py:221 | with `get_relation_type` as written, no inserted edge is labelled `time_linked` |
| KnowledgeEdges.CreatedEdgesOrdered | app/supabase/knowledge_edges.py:186-195 | whatever the classifier, inserted edges have descending scores and no duplicate triples |
| KnowledgeEdges.TopFromRows | app/supabase/knowledge_edges.py:177-188 | each of the top candidates is another row of the user scored by its similarity, at or above the threshold |
| KnowledgeEdges.TopAreBest | app/supabase/knowledge_edges.py:187-188 | every kept candidate scores at least as high as every dropped one |
| KnowledgeEdges.Kept | app/supabase/knowledge_edges.py:285-286 | exactly the rows holding both `id` and `knowledge_text`, in order |
| KnowledgeEdges.SimplifiedOfMeaning | app/supabase/knowledge_edges.py:282-303 | the result has one (date, text) per kept row, in order; a non-string text fails |
| KnowledgeEdges.SimplifiedStaysErr | app/supabase/knowledge_edges.py:301 | once a row fails, the whole projection fails |
| KnowledgeEdges.DateOfIff | app/supabase/knowledge_edges.py:287-299 | the date is "" exactly when the metadata holds no parseable timestamp, and otherwise the 12-character "Mon DD, YYYY" form |
| KnowledgeEdges.TargetIds | app/supabase/knowledge_edges.py:248-261 | exactly the targets of the user's edges from the source with score ≥ min_score and, when given, the relation type |
| KnowledgeEdges.Fetched | app/supabase/knowledge_edges.py:266-271 | exactly the knowledge rows whose id is among the targets |
| KnowledgeEdges.ConnectedAreTargets | app/supabase/knowledge_edges.py:248-275 | every connected memory returned is a stored row with id and text that is the target of a qualifying edge |
| KnowledgeEdges.EdgeTable.constructor | app/supabase/knowledge_edges.py:211 | the edges table starts empty |
| KnowledgeEdges.EdgeTable.ScoreMemories | app/supabase/knowledge_edges.py:176-184 | the loop computes the scored candidates; it fails exactly when some row has no embedding |
| KnowledgeEdges.EdgeTable.InsertEdge | app/supabase/knowledge_edges.py:197-229 | one pass of the insert loop, with the table's new state as the step function says |
| KnowledgeEdges.EdgeTable.InsertAll | app/supabase/knowledge_edges.py:195-229 | the loop appends exactly the batch's edges and reports its status |
| KnowledgeEdges.EdgeTable.CreateKnowledgeEdges | app/supabase/knowledge_edges.py:163-232 | the table grows by exactly the edges of the specified outcome with `get_relation_type` as written, and the call reports how the batch ended |
| KnowledgeEdges.EdgeTable.SimplifyRelatedMemories | app/supabase/knowledge_edges.py:282-303 | the loop computes the specified projection |
| KnowledgeEdges.EdgeTable.GetConnectedMemories | app/supabase/knowledge_edges.py:235-275 | [] with no fetch when no edge qualifies; otherwise the projection of the fetched target rows |
| RelationTypes.TopicSet | app/supabase/knowledge_edges.py:92 | `set(m.get("topics", []))`: {} when the key is absent; an unhashable or non-iterable value raises TypeError |
| RelationTypes.Fires | app/supabase/knowledge_edges.py:90-154 | the thirteen rule outcomes in source order, the last being the time window |
| RelationTypes.Names | app/supabase/knowledge_edges.py:94-158 | each tag is written as its snake_case relation name, position by position |
| RelationTypes.Step | app/supabase/knowledge_edges.py:90-154 | a rule that raises ends the classification with its error; a firing rule appends its tag; a silent one changes nothing |
| RelationTypes.Position | app/supabase/knowledge_edges.py:90-158 | each tag's place in the rule table, `semantic_similarity` coming after all rules |
| RelationTypes.PositionOfTable | app/supabase/knowledge_edges.py:90-154 | the table lists each rule's tag once |
| RelationTypes.CollectOk | app/supabase/knowledge_edges.py:90-154 | the first n rules succeed exactly when none raises, and an error is one of the rules' errors |
| RelationTypes.CollectMembers | app/supabase/knowledge_edges.py:90-154 | a tag is collected exactly when its rule is among the first n and fired |
| RelationTypes.CollectNone | app/supabase/knowledge_edges.py:90-154 | when no rule fires nothing is collected |
| RelationTypes.Run | app/supabase/knowledge_edges.py:90-154 | the rules succeed exactly when none raises; a tag is in the result exactly when its rule fired |
| RelationTypes.Labels | app/supabase/knowledge_edges.py:156-160 | the result is never empty: the fired tags, or exactly `["semantic_similarity"]` when none fired |
| RelationTypes.NamesOf | app/supabase/knowledge_edges.py:160 | naming keeps success, failure and length |
| RelationTypes.RelationTypeAsWritten | app/supabase/knowledge_edges.py:65-160 | `get_relation_type` as written: a non-empty list of relation names, or the error a rule raised |
| RelationTypes.RelationType | app/supabase/knowledge_edges.py:65-160 | the corrected classifier, with the time window evaluated: a non-empty list of relation names, or the error a rule raised |
| RelationTypes.LabelsOfRules | app/supabase/knowledge_edges.py:100-154 | builds_on, evolves, contradicts, reaffirms, topic_cluster and time_linked are each present exactly when their rule fired |
| RelationTypes.LabelsFallback | app/supabase/knowledge_edges.py:156-158 | the result is `["semantic_similarity"]` exactly when no rule fired |
| RelationTypes.FallbackExactly | app/supabase/knowledge_edges.py:156-158 | for two memories, the fallback appears exactly when none of the twelve named rules and not the time window fires |
| RelationTypes.BuildsOnIff | app/supabase/knowledge_edges.py:101-103 | `builds_on` iff both are recurring themes, a topic is shared and the second timestamp compares greater |
| RelationTypes.EvolvesNeedsBuildsOn | app/supabase/knowledge_edges.py:101-105 | `evolves` only comes with `builds_on`, and only when the sentiments differ by more than 0.5 |
| RelationTypes.TopicClusterIff | app/supabase/knowledge_edges.py:140-142 | `topic_cluster` iff at least two topics are shared |
| RelationTypes.ContradictsIff | app/supabase/knowledge_edges.py:122-123 | `contradicts` iff the sentiment product is negative and a topic is shared |
| RelationTypes.ReaffirmsNeeds | app/supabase/knowledge_edges.py:135-136 | `reaffirms` needs a shared topic and sentiment and importance each within 0.1 |
| RelationTypes.TimeLinkedIff | app/supabase/knowledge_edges.py:146-152 | in the corrected classifier `time_linked` appears iff both timestamps parse and lie 1 to 3 whole days apart |
| RelationTypes.AsWrittenNeverTimeLinked | app/supabase/knowledge_edges.py:147 | as written `time_linked` is never produced |
| RelationTypes.AsWrittenNeverTimeLinkedName | app/supabase/knowledge_edges.py:147-160 | as written the returned list never holds the string "time_linked" |
| RelationTypes.NameTimeLinked | app/supabase/knowledge_edges.py:152 | "time_linked" is the name of the temporal rule's tag and of no other |
| RelationTypes.TimestampOnlyFiresNothing | app/supabase/knowledge_edges.py:90-142 | memories holding only a timestamp fire none of the twelve named rules |
| RelationTypes.NextDayLinked | app/supabase/knowledge_edges.py:146-152 | two memories stamped on consecutive days are within the time window |
| RelationTypes.TimeLinkedWitness | app/supabase/knowledge_edges.py:146-158 | for memories stamped a day apart the corrected classifier gives `["time_linked"]` while the code as written gives `["semantic_similarity"]` |
| RelationTypes.RunNone | app/supabase/knowledge_edges.py:90-154 | no rule firing collects nothing |
| RelationTypes.RunOnlyLast | app/supabase/knowledge_edges.py:146-154 | only the time window firing collects just `time_linked` |
| MultistepFlows.FlowOf | app/psychology/multistep_service.py:60-221 | `flows[id]`: the flow stored under each of the sixteen ids, None for any other id |
| MultistepFlows.CbtForAnxiety | app/psychology/multistep_service.py:61-70 | the `cbt-for-anxiety` flow has exactly five steps |
| MultistepFlows.ExposureTherapy | app/psychology/multistep_service.py:71-80 | the `exposure-therapy` flow has exactly five steps |
| MultistepFlows.MindfulnessBasedStressReduction | app/psychology/multistep_service.py:81-90 | the `mindfulness-based-stress-reduction` flow has exactly five steps |
| MultistepFlows.ProlongedExposure | app/psychology/multistep_service.py:91-100 | the `prolonged-exposure` flow has exactly five steps |
| MultistepFlows.CognitiveProcessingTherapy | app/psychology/multistep_service.py:101-110 | the `cognitive-processing-therapy` flow has exactly five steps |
| MultistepFlows.Emdr | app/psychology/multistep_service.py:111-120 | the `emdr` flow has exactly five steps |
| MultistepFlows.CbtForDepression | app/psychology/multistep_service.py:121-130 | the `cbt-for-depression` flow has exactly five steps |
| MultistepFlows.BehavioralActivation | app/psychology/multistep_service.py:131-140 | the `behavioral-activation` flow has exactly five steps |
| MultistepFlows.InterpersonalPsychotherapy | app/psychology/multistep_service.py:141-150 | the `interpersonal-psychotherapy` flow has exactly five steps |
| MultistepFlows.MindfulnessBasedCognitiveTherapy | app/psychology/multistep_service.py:151-160 | the `mindfulness-based-cognitive-therapy` flow has exactly five steps |
| MultistepFlows.EmotionallyFocusedTherapy | app/psychology/multistep_service.py:161-170 | the `emotionally-focused-therapy` flow has exactly five steps |
| MultistepFlows.BehavioralCouplesTherapy | app/psychology/multistep_service.py:171-180 | the `behavioral-couples-therapy` flow has exactly five steps |
| MultistepFlows.CbtForLowSelfEsteem | app/psychology/multistep_service.py:181-190 | the `cbt-for-low-self-esteem` flow has exactly five steps |
| MultistepFlows.CompassionFocusedTherapy | app/psychology/multistep_service.py:191-200 | the `compassion-focused-therapy` flow has exactly five steps |
| MultistepFlows.ComplicatedGriefTherapy | app/psychology/multistep_service.py:201-210 | the `complicated-grief-therapy` flow has exactly five steps |
| MultistepFlows.GriefFocusedCbt | app/psychology/multistep_service.py:211-220 | the `grief-focused-cbt` flow has exactly five steps |
| Multistep.GetFlow | app/psychology/multistep_service.py:230-234 | the flow for an id in the table; ValueError for any other id |
| Multistep.Run | app/psychology/multistep_service.py:319-335 | successive advances keep the state a reachable one |
| Multistep.StartedFacts | app/psychology/multistep_service.py:236-259 | `start` fails with no flow id (unbound `flow`) or an unknown one; otherwise step 0, the first step's content, not done, the given goal or else the flow's, and one assistant message |
| Multistep.AdvancedIndex | app/psychology/multistep_service.py:320-321 | the index grows by exactly one when the judgement advances and is unchanged otherwise; the transcript, goal and flow are untouched |
| Multistep.AdvancedContent | app/psychology/multistep_service.py:323-328 | after an advance the content is the current step while one is left; otherwise the flow is done and says "Flow <id> completed." |
| Multistep.JudgedFacts | app/psychology/multistep_service.py:310-314 | judging copies `advance` and `reason` from the judgement and appends exactly one user message |
| Multistep.AbortedFacts | app/psychology/multistep_service.py:337-339 | aborting sets done and "Flow <id> aborted." and changes nothing else |
| Multistep.AdvancesWalkSteps | app/psychology/multistep_service.py:319-328 | n advancing verdicts walk a started flow to step n, not done, showing that step |
| Multistep.AdvancesFinish | app/psychology/multistep_service.py:319-351 | as many advancing verdicts as the flow has steps finish it with the completed message |
| Multistep.RunLast | app/psychology/multistep_service.py:319-335 | one more advance after n is the run of n + 1 |
| Multistep.MultistepService.constructor | app/psychology/multistep_service.py:225-228 | a new service has no flow started |
| Multistep.MultistepService.Start | app/psychology/multistep_service.py:236-261 | the state is the specified start state, also published under "multistep"; on failure nothing changes |
| Multistep.MultistepService.Advance | app/psychology/multistep_service.py:319-335 | the state becomes the specified advanced state and is published; with no flow started the attribute access raises |
| Multistep.MultistepService.Judge | app/psychology/multistep_service.py:283-317 | ValueError with no flow started; IndexError past the last step; otherwise the judged state is kept and published |
| Multistep.MultistepService.Abort | app/psychology/multistep_service.py:337-345 | the state becomes the aborted one and the "multistep" key is removed from the context |
| Multistep.MultistepService.Finish | app/psychology/multistep_service.py:347-355 | the state becomes the finished one and is published |
| ImprovForms.AppendedEffect | app/function/improv_form_filler/form_orhestration.py:34-37 | appending a message extends that user's history by exactly it (a missing history counts as []) and leaves every other user and key as it was |
| ImprovForms.RemainingMeaning | app/function/improv_form_filler/form_orhestration.py:74 | a field stays missing iff it was missing and no extracted field has its name |
| ImprovForms.RemainingShrinks | app/function/improv_form_filler/form_orhestration.py:74 | the missing fields only shrink, keeping their order |
| ImprovForms.RecordedMeaning | app/function/improv_form_filler/form_orhestration.py:59-71 | every extracted name is recorded, with its last value in the batch; other names keep their values |
| ImprovForms.UpdatedTyped | app/function/improv_form_filler/form_orhestration.py:37 | writing a history under "history" or a field map under "extracted_fields" keeps the context well typed |
| ImprovForms.ReplyFacts | app/function/improv_form_filler/form_orhestration.py:117-144 | with no fields missing the reply is the outro (or ""), a blank line, then the agent's text; otherwise the text alone |
| ImprovForms.FormOrchestration.constructor | app/function/improv_form_filler/form_orhestration.py:8-15 | a new orchestration has user "user", an empty context, `missing_fields` equal to the form's required fields and `in_flow` False |
| ImprovForms.FormOrchestration.ResetAsWritten | app/function/improv_form_filler/form_orhestration.py:26-29 | as written `reset` calls `clear_context`, which the context class does not define, so it always raises AttributeError |
| ImprovForms.FormOrchestration.Reset | app/function/improv_form_filler/form_orhestration.py:26-29 | the corrected reset removes the user's context, restores the required fields and clears `in_flow` |
| ImprovForms.FormOrchestration.ExtractData | app/function/improv_form_filler/form_orhestration.py:31-76 | exactly one user message is appended to the history; without an extraction nothing else changes; otherwise each extracted field is recorded and removed from the missing fields, which only shrink |
| ImprovForms.FormOrchestration.RecordExtracted | app/function/improv_form_filler/form_orhestration.py:59-74 | the loop leaves the missing fields as `Remaining` and the recorded fields as `Recorded` say |
| ImprovForms.FormOrchestration.RunImprov | app/function/improv_form_filler/form_orhestration.py:78-152 | `in_flow` iff fields are missing; with at most one message and an intro, the intro is appended and returned; otherwise the reply is appended and returned; a missing history raises TypeError |
| MbtiAnalysis.Column | app/psychology/mbti_analysis.py:124-127 | one dimension of a series of responses, response by response |
| MbtiAnalysis.TypeOf | app/psychology/mbti_analysis.py:132-143 | a four-letter type; each letter is E/S/T/J exactly when its score is ≤ 0.5 and I/N/F/P exactly when it is above |
| MbtiAnalysis.Traits | app/psychology/mbti_analysis.py:160 | one tone trait per letter of the upper-cased type, "" for an unknown letter |
| MbtiAnalysis.RolledBetween | app/psychology/mbti_analysis.py:121-127 | the new average lies between the old average and the new value, equals the new value on the first response, and times n+1 is the old total plus the value |
| MbtiAnalysis.RolledTimes | app/psychology/mbti_analysis.py:124 | the rolled average times n+1 is the old total plus the new value |
| MbtiAnalysis.ScoreAveraged | app/psychology/mbti_analysis.py:124-127 | each dimension rolls independently over the stored count |
| MbtiAnalysis.AveragedFacts | app/psychology/mbti_analysis.py:121-129 | an update adds one to the count, rolls each dimension, and keeps scores in [0, 1] |
| MbtiAnalysis.RollAllIsMean | app/psychology/mbti_analysis.py:121-129 | after k updates the average times n+k is the old total plus the sum of the new values |
| MbtiAnalysis.AveragedAllByDimension | app/psychology/mbti_analysis.py:121-129 | a series of updates adds its length to the count and rolls each dimension over its column |
| MbtiAnalysis.RollAllFromZero | app/psychology/mbti_analysis.py:121-129 | rolling from a zero count gives the plain mean |
| MbtiAnalysis.DefaultAveragesAreMeans | app/psychology/mbti_analysis.py:121-129 | from the default model, each score after a series of updates is the mean of the observed values |
| MbtiAnalysis.TypeTraitsKnown | app/psychology/mbti_analysis.py:146-160 | every letter of a computed type has a tone trait |
| MbtiAnalysis.StylePromptIgnoresCase | app/psychology/mbti_analysis.py:160 | the style prompt of a type does not depend on its case |
| MbtiAnalysis.StylePromptFourLetters | app/psychology/mbti_analysis.py:146-162 | the prompt for a four-letter type is "Your tone should be " followed by the tone of each upper-cased letter, in order, joined by "; ", and a full stop |
| MbtiAnalysis.StylePrompt | app/psychology/mbti_analysis.py:146-162 | the prompt is "Your tone should be ", then the tone of each letter of the upper-cased type in order ("" for an unknown letter) joined by "; ", then a full stop |
| MbtiAnalysis.MbtiAnalysisService.constructor | app/psychology/mbti_analysis.py:72-87 | the model is the fetched one, or the default when nothing is fetched |
| MbtiAnalysis.MbtiAnalysisService.UpdateRollingAverageAsWritten | app/psychology/mbti_analysis.py:117-129 | as written the update reads `response_count`, which the stored model does not declare, so it always raises |
| MbtiAnalysis.MbtiAnalysisService.AnalyzeMessageAsWritten | app/psychology/mbti_analysis.py:95-114 | as written every analysis returns None and nothing is saved |
| MbtiAnalysis.MbtiAnalysisService.UpdateRollingAverage | app/psychology/mbti_analysis.py:117-129 | the corrected update rolls every dimension over the stored `message_count` and adds one to it |
| MbtiAnalysis.MbtiAnalysisService.SaveMbti | app/psychology/mbti_analysis.py:89-93 | the user's row becomes the current model; a failed write leaves the table |
| MbtiAnalysis.MbtiAnalysisService.AnalyzeMessage | app/psychology/mbti_analysis.py:95-114 | a failed run changes nothing and gives None; otherwise the averages roll, the model is saved and the answer returned |
| OceanAnalysis.WeightedFacts | app/psychology/ocean_analysis.py:97-112 | the first value is taken as is; later ones move the average by 1.2/(n+1.2) of the gap, so it stays between old average and new value |
| OceanAnalysis.UpdatedFacts | app/psychology/ocean_analysis.py:93-120 | an update adds one to the count, weighs each trait, and keeps scores in [0, 1] |
| OceanAnalysis.PersonalityTraitsFacts | app/psychology/ocean_analysis.py:122-162 | the report has exactly the five traits, each "High" iff its score is ≥ 0.5, with the table's description for that level |
| OceanAnalysis.PersonalityTraits | app/psychology/ocean_analysis.py:122-162 | every one of the five traits is reported under its own name, with the description of that trait's score |
| OceanAnalysis.OceanAnalysisService.constructor | app/psychology/ocean_analysis.py:60-64 | the model is the fetched one, or the default when nothing is fetched |
| OceanAnalysis.OceanAnalysisService.LoadOceanAsWritten | app/psychology/ocean_analysis.py:66-71 | as written a miss calls the int `logging.ERROR` and raises TypeError |
| OceanAnalysis.OceanAnalysisService.LoadOcean | app/psychology/ocean_analysis.py:66-71 | the corrected load takes the fetched model, keeping the current one on a miss |
| OceanAnalysis.OceanAnalysisService.UpdateOceanRollingAverage | app/psychology/ocean_analysis.py:93-120 | every trait is weighed by the specified update and the count grows by one |
| OceanAnalysis.OceanAnalysisService.SaveOcean | app/psychology/ocean_analysis.py:73-74 | the user's row becomes the current model; a failed write leaves the table |
| OceanAnalysis.OceanAnalysisService.AnalyzeMessage | app/psychology/ocean_analysis.py:76-91 | a failed run changes nothing and gives None; otherwise the traits update, the model is saved and the answer returned |
| Profiles.ProfileRepository.constructor | app/supabase/profiles.py:26-31 | the repository is over the given `profiles` rows |
| Profiles.ProfileRepository.GetUserCredit | app/supabase/profiles.py:139-154 | the stored balance when the read succeeds and the user has one; None for a failed read, a missing row or a missing balance |
| Profiles.ProfileRepository.DeductCredits | app/supabase/profiles.py:168-189 | True iff the amount is non-negative, the balance covers it and every call succeeds, and then the balance drops by exactly the amount and `credits_used` is the amount; a failing second write leaves the balance written; every other refusal changes nothing; no balance ever becomes negative |
| Profiles.ProfileRepository.IncrementUserCredit | app/supabase/profiles.py:226-242 | a negative amount is refused with nothing changed; a missing balance raises TypeError; otherwise the balance grows by exactly the amount and the re-read balance is returned; balances stay non-negative |
| ConversationHistory.Dump | app/supabase/conversation_history.py:34-41 | the stored dict has exactly the keys role, content, created_at and user_id |
| ConversationHistory.FromDict | app/supabase/conversation_history.py:43-51 | a decoded message takes its role, content, parsed timestamp and user id from the dict; a missing key or unparseable timestamp is an error |
| ConversationHistory.FromDictDump | app/supabase/conversation_history.py:34-51 | decoding a dumped message gives the message back |
| ConversationHistory.DumpAll | app/supabase/conversation_history.py:91 | one stored dict per message |
| ConversationHistory.FromDictAll | app/supabase/conversation_history.py:73 | one message per dict, or the first error |
| ConversationHistory.FromDictAllDumpAll | app/supabase/conversation_history.py:73-91 | decoding a stored history gives the history back |
| ConversationHistory.CreatedFacts | app/supabase/conversation_history.py:58-83 | reading never changes an existing row; a new user reads as [] and gets an empty row when the insert succeeds; no other user's row appears or disappears |
| ConversationHistory.WrittenReadsBack | app/supabase/conversation_history.py:85-95 | a written history is what the next read returns, and no other user's row changes |
| ConversationHistory.TranscriptLines | app/supabase/conversation_history.py:131-135 | no more transcript lines than messages |
| ConversationHistory.TranscriptIgnoresOthers | app/supabase/conversation_history.py:132 | a message not written by the user never affects the transcript or the summary prompt |
| ConversationHistory.TranscriptOfOwnMessages | app/supabase/conversation_history.py:132-135 | for the user's own messages the transcript is "role: content" of each, in order |
| ConversationHistory.ConversationHistoryTable.constructor | app/supabase/conversation_history.py:23 | the table is over the given rows |
| ConversationHistory.ConversationHistoryTable.GetOrCreate | app/supabase/conversation_history.py:58-83 | the decoded history, or [] for a new user or a failed read, with a new user's row created |
| ConversationHistory.ConversationHistoryTable.Update | app/supabase/conversation_history.py:85-95 | only an existing row is rewritten, and a failed write changes nothing |
| ConversationHistory.ConversationHistoryTable.Append | app/supabase/conversation_history.py:97-108 | the returned history is the read one plus the new message by the user at `now`, and it is written back |
| ConversationHistory.ConversationHistoryTable.Clear | app/supabase/conversation_history.py:110-120 | the user's history becomes []; False exactly when the write raises |
| ConversationHistory.ConversationHistoryTable.ReplaceWithSummary | app/supabase/conversation_history.py:122-174 | the stripped summary of the user's own messages becomes the only stored message (role "Summary", no user id); a failing summariser gives [] and writes nothing |
| ConversationHistory.SummaryReadsBack | app/supabase/conversation_history.py:159-168 | after a summary the history reads back as that one message, which never reaches the next summary's prompt |
| ConversationHistory.AppendEffect | app/supabase/conversation_history.py:97-108 | an append after a good read stores the old history plus the message; after a failed read the stored history is the message alone |
| PersonalityPrompt.InstructionLevels | app/function/personality_prompt.py:38-43 | a level from 0 to 5 selects its table's entry; any other level gives the empty instruction and a line of three spaces |
| PersonalityPrompt.PromptJoinsLines | app/function/personality_prompt.py:38-43 | the prompt is the four indented lines (empathy, directness, warmth, challenge) joined by newlines |
| PersonalityPrompt.PromptLines | app/function/personality_prompt.py:38-43 | when no table entry holds a newline, the prompt splits into exactly its four lines |
| PersonalityPrompt.GetPersonalityPrompt | app/function/personality_prompt.py:1-43 | the application's tables are keyed 0 to 5, and the prompt is the empathy, directness, warmth and challenge lines joined by newlines, each three spaces then that table's entry for a level from 0 to 5, or nothing for any other level |
| PersonalityPrompt.PromptByLevels | app/function/personality_prompt.py:38-43 | over tables keyed 0 to 5, the prompt is the four level lines joined by newlines |
| PersonalityPrompt.TablesShaped | app/function/personality_prompt.py:2-36 | each of the four instruction tables is keyed by exactly the levels 0 to 5 |

## Left out

- VectorStore.UpsertEffect: the `"last_updated": "now()"` column that every update of an existing row also writes (`app/supabase/pgvector.py:49` and `:82`, `app/function/memory_extraction.py:101`, `app/personal_agents/memory_extraction.py:146`) is not modelled; `Row` has no such column, so the contract describes the update as touching only the metadata and the mention count.
- The language-model agents (`Runner.run` of the extraction, judge, improv, summary, MBTI and OCEAN agents) are not modelled. Their answers are parameters, and the instruction text built for them is not modelled. That text is the `extraction_prompt`/`prompt` strings and the `instructions +=` growth in `form_orhestration.py`, `judge`'s prompt, and `MultistepService.update_prompt` (`app/psychology/multistep_service.py:266-281`).
- `generate_embedding`, `cosine_similarity` and the Supabase RPCs `find_similar_memories`, `find_memories_by_filter`, `match_user_knowledge` and `match_user_slang` are not modelled. Their results are parameters: an embedding may be missing, as when `generate_embedding` returns None.
- Logging, `print`, the `async`/thread-pool scheduling and concurrent access to the tables are not modelled; every operation runs alone.
- `json.dumps`/`json.loads` of records are identity: `VectorStore.Metadata.MetaJson` is a dict written as JSON text and read back as the same dict.
- `datetime.fromisoformat` accepts the forms `isoformat()` writes (date; date and time with seconds and optional microseconds). Other forms it accepts (UTC offsets, "Z", minutes-only times, week dates) are treated as unparseable.
- `str.lower`/`str.upper` are modelled for ASCII letters only. This affects `search_nodes` and `generate_style_prompt`.
- Counts (`mention_count`, `message_count`, `response_count`) are `nat`; a count stored as something else is not modelled.
- MultistepFlows.FlowOf: carries no contract, so that every flow in the table has five steps is proved flow by flow (`MultistepFlows.CbtForAnxiety` and the other fifteen) but not through the lookup. Any contract on the sixteen-way comparison of the id with the long literal ids exceeds the proof budget. The Multistep lemmas therefore hold for any table and any step count. A step is reduced to its content.
- Multistep.MultistepService.constructor: the flow table is passed in, where the source reads the module-level `flows`.
- `start` without a flow id ends in an UnboundLocalError (a NameError) when it reads `flow`. The model returns that error before computing the "Starting with goal" message (`app/psychology/multistep_service.py:244-255`), which nothing can observe.
- `app/psychology/multistep_service.py:5` imports `delete_context_key` from `app/websockets/context/store.py`, which does not define it, so loading the service module raises ImportError and none of `MultistepService` can run as written (see Findings). The Multistep model describes the service with the import repaired: `UserContext.ContextStore.DeleteContextKey` gives the store the key removal that `app/function/improv_form_filler/form_context.py:27-31` has.
- UserContext and FormContextStore hold values, not references. Python's live map from `get_context` and the copy from `dump_context` therefore read the same, and mutating a returned map in place is not modelled.
- KnowledgeGraph is modelled on values. The source mutates entity dicts shared between the cache and earlier results, so aliasing through a previously returned entity is not modelled.
- MbtiAnalysis.MbtiAnalysisService.constructor: `get_mbti`'s insert of a default row for a new user is not modelled; the constructor takes what `get_mbti` returns as `fetched`.
- OceanAnalysis.OceanAnalysisService.constructor: the same holds for `get_ocean`. The constructor uses the corrected `load_ocean` (see Findings).
- OceanAnalysis.PersonalityTraitsFacts: the reported score is the exact score, not `round(score, 2)`; floating-point rounding is not modelled.
- Scores, sentiments, importances and similarities are reals, not floating point.
- PersonalityPrompt.PromptLines: states the four-line split for tables without newlines. That the literal table entries hold no newline is not proved: showing that a long literal lacks a character exceeds the proof budget. That the tables are keyed 0 to 5 is proved (`PersonalityPrompt.TablesShaped`).
- PersonalityPrompt.GetPersonalityPrompt: states the newline join of the four lines over the application's tables; that it splits back into exactly those lines rests on the tables holding no newline, which is not proved, for the reason above.
- RelationTypes.Name: that the tag-to-name map is injective is proved only for `time_linked` (`RelationTypes.NameTimeLinked`); the other lemmas are stated over tags.
- MatchFilter.SortKeyOf: a list-valued `similarity` is a sort key Python can compare with other lists; the model has no real-valued key for it, so a similarity sort over two or more records with list similarities is reported as TypeError.
- KnowledgeEdges.TargetIds: the `relation_type` filter is `.eq` on the list-valued column, so an edge matches when its list is exactly `[relation_type]`. Membership in a longer list does not match.
- ConversationHistory.FromDictAll: a stored history element that is not a dict is not modelled; elements are records.
- The personal-agent query methods `mood_based_language`, `memory_surface`, `rituals`, `boundaries`, `self_awareness` and `emotional_intensity` are covered by `PersonalMemory.FiltersIgnored`: whatever filter dict they build, they return the plain similarity results. Their filter dicts are defined but carry no contract.
- `get_required_fields` (`app/function/improv_form_filler/form_orhestration.py:17-18`) reads an attribute that is never set and is not part of this model. So are `pretty_print_history` and the getters around it, which only format or return state.

## Findings

| source | as written | input that shows it | evidently intended | confidence | as-written member | corrected member |
|---|---|---|---|---|---|---|
| app/supabase/knowledge_edges.py:147 | `datetime.fromisoformat` is called on the module imported at line 10, which has no such attribute; the AttributeError is swallowed, so `time_linked` is never produced, and the edge builder (line 221) never stores it (`KnowledgeEdges.CreatedEdgesNeverTimeLinked`) | two memories holding only the timestamps "2025-04-07T10:00:00" and "2025-04-08T10:00:00" get `["semantic_similarity"]` (`RelationTypes.TimeLinkedWitness`, `RelationTypes.AsWrittenNeverTimeLinked`) | `datetime.datetime.fromisoformat`, tagging memories 1 to 3 days apart `time_linked` | high; not executed | RelationTypes.RelationTypeAsWritten | RelationTypes.RelationType |
| app/function/improv_form_filler/form_orhestration.py:27 | `reset` calls `self.context.clear_context`, which `FormContext` does not define, so every reset raises AttributeError before anything is reset | any call of `reset` | `delete_context(self.user_id)`, then the required fields restored and `in_flow` cleared | high; not executed | ImprovForms.FormOrchestration.ResetAsWritten | ImprovForms.FormOrchestration.Reset |
| app/psychology/mbti_analysis.py:121 | the update reads `response_count`, but the stored `MBTI` model declares `message_count` (`app/supabase/supabase_mbti.py:17`); the AttributeError is caught in `analyze_message`, which then returns None without updating or saving | any message with a successful agent run | roll the averages over `message_count` and save | high; not executed | MbtiAnalysis.MbtiAnalysisService.AnalyzeMessageAsWritten | MbtiAnalysis.MbtiAnalysisService.AnalyzeMessage |
| app/function/memory_extraction.py:66 | `extract_memory` runs `self.agent`, which `__init__` (lines 51-52) never sets; the AttributeError is caught, so every call returns None and stores nothing | any message | run an extraction agent, as the personal-agent service does with `self.extraction_agent` | high; not executed | MemoryExtraction.MemoryExtractionService.ExtractMemoryAsWritten | MemoryExtraction.MemoryExtractionService.ExtractMemory |
| app/psychology/ocean_analysis.py:71 | on a miss `load_ocean` calls `logging.ERROR`, the integer level 40, which raises TypeError; since `__init__` calls `load_ocean`, the service cannot be built | `get_ocean` returning None (the default-row insert or the read failing) | `logging.error(...)`, keeping the default model | high; not executed | OceanAnalysis.OceanAnalysisService.LoadOceanAsWritten | OceanAnalysis.OceanAnalysisService.LoadOcean |
| app/psychology/multistep_service.py:5 | `delete_context_key` is imported from `app/websockets/context/store.py`, which defines only `get_context`, `update_context`, `delete_context` and `dump_context`, so importing the module raises ImportError | importing `app.psychology.multistep_service` | a store function removing one key of one user, as the form filler's store has | high; not executed | Multistep.ServiceImportAsWritten | UserContext.ContextStore.DeleteContextKey |
