# nlq-gc core, modelled in Dafny

nlq-gc turns a natural-language query into a *graph code*: a keyword
dictionary plus a square relation matrix. It produces it by one or two calls
to an asynchronous language-model backend. This project models the five
components that carry that logic, and proves what they promise.

- **Result entity** (`GraphCodes`, graph_code.dfy). `GraphCode` is a
  write-once record. It starts PENDING and moves exactly once, to FINISHED or
  to ERROR. A shared NOT_AVAILABLE sentinel answers for unknown ids. A success
  payload that fails the structural check (both parts present, a square
  matrix, one row per dictionary entry) becomes ERROR with a fixed message.
- **Prompt builder** (`Prompts`, prompt_builder.dfy). A template and the
  list of placeholders still outstanding. `replace` consumes one outstanding
  placeholder and rewrites every occurrence of its token. The rewrite follows
  Java's `String.replace`: left to right, non-overlapping. `replaceIfRequired`
  does nothing when the placeholder is not outstanding. The prompt is
  released only when nothing is outstanding.
- **Transaction orchestrator** (`Orchestrator`, async_llm_service.dfy). It
  dispatches keyword and graph-code prompts. It tracks in-flight
  transactions. It chains a finished keyword transaction into its graph-code
  prompt under the same id. It hands a terminal result out once, and evicts
  transactions older than the timeout. The five maps of the service are
  views of one map from id to transaction. The views are pending keyword,
  pending graph code, finished, prepared builders and backend handles.
- **Response grading** (`Evaluation`, response_checker.dfy). This is the
  ordered check cascade of the evaluation harness. It covers:
  - parsing;
  - expected errors;
  - false errors;
  - keywords compared ignoring case;
  - matrix size;
  - the encoding values allowed on and off the diagonal;
  - entry-wise matching against the expected matrix, with a similarity
    threshold of 0.85 and a warning below 1.
- **Request assembly** (`Nlq`, nlq_service.dfy). `handleNLQ` fills the
  QUERY, USER and ENCODING placeholders where they are required. It then
  either chains through a keyword prompt, leaving exactly KEYWORDS
  outstanding, or dispatches the finished graph-code prompt directly.

Shared vocabulary lives in `Base` (base.dfy): nullable values (`Option`),
thrown exceptions as `Result` failures, `StringUtils.hasText`, matrices, and
`List.indexOf`.

The model makes these choices:
- The backend is an oracle `Backend(submit, poll)`: `submit` yields a handle,
  and `poll` yields the parsed reply, or `None` while the response text is
  blank.
- The clock (`now`), fresh transaction ids, `gson.toJson` of a keyword list
  (`toJson`) and the encoding text are parameters.
- The timeout is a constructor parameter.
- A ghost `submissions` set records every prompt handed to the backend.

The source has a few inconsistencies, resolved as follows:
- `Replacement` lacks KEYWORDS although the orchestrator uses it. The model
  includes it, with the token `[KEYWORDS]`.
- `error` is declared with two arguments but called with one. The model
  passes the reply's description on.
- The chained graph-code handle is deleted right after it is stored. The
  model drops the keyword handle first and then stores the new one (see
  Findings).

Two further choices:
- Eviction is strict, `start + timeout < now`, as at AsyncLLMService.java:205.
- A reply that fails to parse is not modelled: replies reach the model
  already parsed (see Left out).

## Model

| member | source | states |
|---|---|---|
| Base.IsWhitespace | src/main/java/de/richardvierhaus/nlq_gc/llm/AsyncLLMService.java:228 | the whitespace test inside `hasText`: the ASCII characters `Character.isWhitespace` accepts (space, tab, line feed, vertical tab, form feed, carriage return and the four separator controls) |
| Base.ContainsText | src/main/java/de/richardvierhaus/nlq_gc/llm/AsyncLLMService.java:228 | the `hasText` test: true exactly when some character is not whitespace |
| Base.HasText | src/main/java/de/richardvierhaus/nlq_gc/llm/AsyncLLMService.java:228 | `StringUtils.hasText`: present and, by `ContainsText`, holding some non-whitespace character |
| Base.RowsHaveLength | src/main/java/de/richardvierhaus/nlq_gc/GraphCode.java:98-100 | the early-return row loop succeeds exactly when every row has length `n` |
| Base.IndexOf | src/main/java/de/richardvierhaus/nlq_gc/evaluation/ResponseChecker.java:152-153 | `List.indexOf`: -1 exactly when the value is absent, otherwise the first index holding it |
| GraphCodes.VerifyDictionaryAndMatrix | src/main/java/de/richardvierhaus/nlq_gc/GraphCode.java:93-104 | true exactly when dictionary and matrix are present, the matrix is square and its side is the dictionary length |
| GraphCodes.GraphCode.CanUpdate | src/main/java/de/richardvierhaus/nlq_gc/GraphCode.java:113-116 | `checkStateUpdate`: an update is allowed exactly from PENDING; `MarkError` and `MarkFinished` fail without change otherwise, where the source throws |
| GraphCodes.GraphCode.PendingGC | src/main/java/de/richardvierhaus/nlq_gc/GraphCode.java:27-29 | a new entity is PENDING with the given model and start time and no payload, error or description |
| GraphCodes.GraphCode.NotAvailableGC | src/main/java/de/richardvierhaus/nlq_gc/GraphCode.java:36-44 | the sentinel is NOT_AVAILABLE with no model and no payload |
| GraphCodes.GraphCode.MarkError | src/main/java/de/richardvierhaus/nlq_gc/GraphCode.java:52-57 | succeeds exactly from PENDING; then ERROR with the given error and description and payload untouched; otherwise nothing changes |
| GraphCodes.GraphCode.MarkFinished | src/main/java/de/richardvierhaus/nlq_gc/GraphCode.java:70-81 | succeeds exactly from PENDING; a valid payload is stored as FINISHED, an invalid one gives ERROR with ERROR_DEFAULT and no payload; otherwise nothing changes; the invariant (FINISHED implies a valid payload) is kept |
| GraphCodes.WriteOnce | src/main/java/de/richardvierhaus/nlq_gc/GraphCode.java:113-116 | after one successful update, a second `error` and a following `finished` both fail and the recorded error stays |
| Prompts.Token | src/main/java/de/richardvierhaus/nlq_gc/enums/Replacement.java:5-22 | every placeholder token is bracketed text of length at least three |
| Prompts.RequiresKeywords | src/main/java/de/richardvierhaus/nlq_gc/enums/PromptGraphCode.java:24-26 | a graph-code prompt needs a keyword stage exactly when KEYWORDS is among its required replacements |
| Prompts.RemoveFirst | src/main/java/de/richardvierhaus/nlq_gc/nlq/PromptBuilder.java:36 | `List.remove(Object)`: unchanged if absent, otherwise one element shorter with exactly one occurrence fewer |
| Prompts.ReplaceAll | src/main/java/de/richardvierhaus/nlq_gc/nlq/PromptBuilder.java:39 | `String.replace` for a non-empty token: a replacement no longer than the token never lengthens the text, one no shorter never shortens it |
| Prompts.ReplaceAllAbsent | src/main/java/de/richardvierhaus/nlq_gc/nlq/PromptBuilder.java:39 | `String.replace` leaves a text without the token unchanged |
| Prompts.ReplaceAllInserts | src/main/java/de/richardvierhaus/nlq_gc/nlq/PromptBuilder.java:39 | when the token occurs, the replacement text occurs in the result |
| Prompts.ReplaceAllIdentity | src/main/java/de/richardvierhaus/nlq_gc/nlq/PromptBuilder.java:39 | replacing a token by itself is the identity |
| Prompts.RemoveFirstShifts | src/main/java/de/richardvierhaus/nlq_gc/nlq/PromptBuilder.java:36 | removal keeps the other elements in order, shifted past the removed position |
| Prompts.Substituted | src/main/java/de/richardvierhaus/nlq_gc/nlq/PromptBuilder.java:52-57 | the effect of `replaceIfRequired` on a builder's outstanding list and text; `SubstituteOnce` and `SubstitutedShrinks` state what it does to the list |
| Prompts.SubstituteOnce | src/main/java/de/richardvierhaus/nlq_gc/nlq/PromptBuilder.java:52-55 | on a duplicate-free list, a performed substitution leaves the placeholder no longer outstanding and the list duplicate-free |
| Prompts.SubstitutedShrinks | src/main/java/de/richardvierhaus/nlq_gc/nlq/PromptBuilder.java:52-57 | the outstanding multiset only shrinks, and stays equal exactly when the placeholder was not outstanding |
| Prompts.PromptBuilder.constructor | src/main/java/de/richardvierhaus/nlq_gc/nlq/PromptBuilder.java:19-22 | the outstanding list equals the kind's required replacements and the text is the template |
| Prompts.PromptBuilder.Replace | src/main/java/de/richardvierhaus/nlq_gc/nlq/PromptBuilder.java:35-41 | succeeds exactly when the placeholder is outstanding; then removes one occurrence and rewrites every token occurrence; on failure nothing changes |
| Prompts.PromptBuilder.ReplaceIfRequired | src/main/java/de/richardvierhaus/nlq_gc/nlq/PromptBuilder.java:52-57 | the new state is the substitution step: `replace` when outstanding, a no-op otherwise |
| Prompts.PromptBuilder.Finalize | src/main/java/de/richardvierhaus/nlq_gc/nlq/PromptBuilder.java:66-71 | yields the text exactly when nothing is outstanding, otherwise fails with the outstanding list |
| Prompts.PromptBuilder.GetLeftoverReplacements | src/main/java/de/richardvierhaus/nlq_gc/nlq/PromptBuilder.java:88-90 | returns the outstanding list and changes nothing |
| Prompts.ReplaceTwice | src/main/java/de/richardvierhaus/nlq_gc/nlq/PromptBuilder.java:35-39 | with no duplicate outstanding, a second `replace` of the same placeholder fails and the placeholder is no longer outstanding |
| Orchestrator.Settled | src/main/java/de/richardvierhaus/nlq_gc/llm/AsyncLLMService.java:264-268 | what an answered graph-code poll leaves in the entity: the reply's error and description when it has error text, else the payload as FINISHED when it passes the structural check, else ERROR_DEFAULT; never a payload together with an error |
| Orchestrator.AsyncLLMService.PendingKeyword | src/main/java/de/richardvierhaus/nlq_gc/llm/AsyncLLMService.java:28 | the view `pendingKeywordTransactions`: the entities of the transactions waiting for keywords |
| Orchestrator.AsyncLLMService.PendingGraphCode | src/main/java/de/richardvierhaus/nlq_gc/llm/AsyncLLMService.java:29 | the view `pendingGraphCodeTransactions`: the entities of the transactions waiting for the graph code |
| Orchestrator.AsyncLLMService.Finished | src/main/java/de/richardvierhaus/nlq_gc/llm/AsyncLLMService.java:30 | the view `finishedGraphCodes`: the entities cached until they are fetched |
| Orchestrator.AsyncLLMService.Prepared | src/main/java/de/richardvierhaus/nlq_gc/llm/AsyncLLMService.java:31 | the view `preparedGCPrompts`: the builders of the transactions waiting for keywords |
| Orchestrator.AsyncLLMService.Handles | src/main/java/de/richardvierhaus/nlq_gc/llm/AsyncLLMService.java:32 | the view `transactionMapping`: the backend handle of every transaction not yet cached |
| Orchestrator.AsyncLLMService.constructor | src/main/java/de/richardvierhaus/nlq_gc/llm/AsyncLLMService.java:38-48 | all maps start empty and nothing has been submitted |
| Orchestrator.AsyncLLMService.MapsAgree | src/main/java/de/richardvierhaus/nlq_gc/llm/AsyncLLMService.java:28-32 | under the invariant: the three result maps have pairwise disjoint keys; prepared builders exist exactly for pending keyword ids and miss only KEYWORDS; handles exist exactly for pending ids; pending entities are PENDING and cached ones ERROR |
| Orchestrator.AsyncLLMService.AddKeywordPrompt | src/main/java/de/richardvierhaus/nlq_gc/llm/AsyncLLMService.java:120-135 | succeeds exactly when the builder's outstanding list is [KEYWORDS]; on failure nothing is submitted and no map changes; on success the fresh id gets a new PENDING entity for the model, the backend handle and the builder, and the keyword prompt is submitted once |
| Orchestrator.AsyncLLMService.TrackKeyword | src/main/java/de/richardvierhaus/nlq_gc/llm/AsyncLLMService.java:130-132 | the three `put` calls of `addKeywordPrompt`: the id maps to the new entity, the handle and the builder, and the entity and builder join the orchestrator |
| Orchestrator.AsyncLLMService.AddGCPrompt | src/main/java/de/richardvierhaus/nlq_gc/llm/AsyncLLMService.java:146-148 | the fresh id is registered only as pending graph code, with a new PENDING entity and the handle of the one submission |
| Orchestrator.AsyncLLMService.DispatchGraphCode | src/main/java/de/richardvierhaus/nlq_gc/llm/AsyncLLMService.java:161-170 | the given entity is tracked as pending graph code under the given id, with the handle of the one submission |
| Orchestrator.AsyncLLMService.Track | src/main/java/de/richardvierhaus/nlq_gc/llm/AsyncLLMService.java:166-167 | `put(id, ...)` on the handle and graph-code maps: the id maps to the given transaction and nothing else changes |
| Orchestrator.AsyncLLMService.Forget | src/main/java/de/richardvierhaus/nlq_gc/llm/AsyncLLMService.java:207-209 | `remove(id)` on every map: the id is gone and every other entry stays |
| Orchestrator.AsyncLLMService.GetGraphCode | src/main/java/de/richardvierhaus/nlq_gc/llm/AsyncLLMService.java:179-190 | a cached result is returned and removed; a pending keyword entity is returned and nothing changes; a pending graph code is settled by its reply or stays; an unknown id yields NOT_AVAILABLE; a non-pending result is never left tracked |
| Orchestrator.AsyncLLMService.CheckPendingGraphCodeTransaction | src/main/java/de/richardvierhaus/nlq_gc/llm/AsyncLLMService.java:253-276 | no result for other ids; with no reply the PENDING entity comes back and nothing changes; with a reply it is settled (error, payload, or ERROR_DEFAULT) and the id is dropped, never cached |
| Orchestrator.AsyncLLMService.Expired | src/main/java/de/richardvierhaus/nlq_gc/llm/AsyncLLMService.java:205 | the eviction test: the entity started more than `timeout` before `now` (strictly) |
| Orchestrator.AsyncLLMService.Evicts | src/main/java/de/richardvierhaus/nlq_gc/llm/AsyncLLMService.java:201-205 | one `removeTimeouts(mapping, now)` evicts a transaction exactly when it lies in that map and has expired |
| Orchestrator.AsyncLLMService.RemoveTimeouts | src/main/java/de/richardvierhaus/nlq_gc/llm/AsyncLLMService.java:201-214 | removes exactly the entries of the given map with `start + timeout < now`, with their handle and builder; every other entry is untouched |
| Orchestrator.AsyncLLMService.EvictIfExpired | src/main/java/de/richardvierhaus/nlq_gc/llm/AsyncLLMService.java:204-211 | one iteration: drops the id exactly when it is in the given map and expired |
| Orchestrator.AsyncLLMService.KeywordsJson | src/main/java/de/richardvierhaus/nlq_gc/llm/AsyncLLMService.java:243 | `gson.toJson` of the reply's dictionary, with a null dictionary written as "null" |
| Orchestrator.AsyncLLMService.ChainedPrompt | src/main/java/de/richardvierhaus/nlq_gc/llm/AsyncLLMService.java:243-244 | `replace(KEYWORDS, json)` then `toString` on the waiting builder: its text with every KEYWORDS token rewritten to the JSON of the reply's dictionary |
| Orchestrator.AsyncLLMService.KeywordStep | src/main/java/de/richardvierhaus/nlq_gc/llm/AsyncLLMService.java:227-245 | one poll of a waiting keyword transaction: no reply keeps it, error text caches it, any other reply re-dispatches its entity for the prompt with the keywords filled in |
| Orchestrator.AsyncLLMService.KeywordOutcome | src/main/java/de/richardvierhaus/nlq_gc/llm/AsyncLLMService.java:221-225 | only transactions waiting for keywords are polled; every other transaction is left as it is |
| Orchestrator.AsyncLLMService.KeywordPass | src/main/java/de/richardvierhaus/nlq_gc/llm/AsyncLLMService.java:220-251 | the transaction map after every id has had its keyword outcome, the specification of `CheckKeywordTransactions` |
| Orchestrator.AsyncLLMService.CheckKeywordTransactions | src/main/java/de/richardvierhaus/nlq_gc/llm/AsyncLLMService.java:220-251 | the new map is one keyword pass over the old one: unanswered ids stay; error replies are cached; other replies are chained into a graph-code submission under the same id; the submissions log grows by exactly the chained prompts; only entities and builders of keyword transactions may change, so every other entity (a cached or pending graph-code one) keeps all its fields |
| Orchestrator.AsyncLLMService.AdvanceKeyword | src/main/java/de/richardvierhaus/nlq_gc/llm/AsyncLLMService.java:223-249 | one loop iteration applies the keyword-pass outcome to its id alone and logs its submission; it may change only that id's entity and builder, and only while the id waits for keywords |
| Orchestrator.AsyncLLMService.FailKeywordTransaction | src/main/java/de/richardvierhaus/nlq_gc/llm/AsyncLLMService.java:235-239 | the entity records the reply's error and description and the transaction moves to the finished cache, its builder dropped |
| Orchestrator.AsyncLLMService.ChainKeywordTransaction | src/main/java/de/richardvierhaus/nlq_gc/llm/AsyncLLMService.java:241-248 | the keywords are filled into the builder, the same entity is re-dispatched under the same id and the new handle is kept |
| Orchestrator.AsyncLLMService.PartialPassStart | src/main/java/de/richardvierhaus/nlq_gc/llm/AsyncLLMService.java:220-222 | before the pass nothing has moved |
| Orchestrator.AsyncLLMService.PartialPassStep | src/main/java/de/richardvierhaus/nlq_gc/llm/AsyncLLMService.java:222-250 | treating one more id changes that id alone |
| Orchestrator.AsyncLLMService.ChainedSubmissionsGrow | src/main/java/de/richardvierhaus/nlq_gc/llm/AsyncLLMService.java:242-244 | treating one more id adds exactly its submission to the log |
| Orchestrator.AsyncLLMService.FillKeywords | src/main/java/de/richardvierhaus/nlq_gc/llm/AsyncLLMService.java:242-244 | the builder's KEYWORDS token is replaced by the JSON text and the finished prompt is that text |
| Orchestrator.AsyncLLMService.Survivors | src/main/java/de/richardvierhaus/nlq_gc/llm/AsyncLLMService.java:102-104 | the transactions that have not expired at `now`, the specification of `EvictExpired` |
| Orchestrator.AsyncLLMService.EvictExpired | src/main/java/de/richardvierhaus/nlq_gc/llm/AsyncLLMService.java:102-104 | the three `removeTimeouts` calls together keep exactly the transactions that have not expired, unchanged |
| Orchestrator.AsyncLLMService.Sweep | src/main/java/de/richardvierhaus/nlq_gc/llm/AsyncLLMService.java:96-107 | eviction over finished, pending keyword and pending graph code, then chaining: the new map is the keyword pass over the survivors, the log grows by exactly that pass's chained prompts, an old id survives exactly when it had not expired, and every entity not waiting for keywords keeps all its fields |
| Orchestrator.ChainedHandlesAsWritten | src/main/java/de/richardvierhaus/nlq_gc/llm/AsyncLLMService.java:244-247 | the handle map after the source's order of store-then-remove: the id has no handle |
| Orchestrator.ChainedHandles | src/main/java/de/richardvierhaus/nlq_gc/llm/AsyncLLMService.java:244-247 | the handle map after remove-then-store: the id has the new handle and other ids keep theirs |
| Orchestrator.AsyncLLMService.AsWrittenChainLosesHandle | src/main/java/de/richardvierhaus/nlq_gc/llm/AsyncLLMService.java:244-248 | under the invariant, chaining a waiting keyword id in the written order leaves it pending graph code with no backend handle, so the handle map no longer covers the two pending maps; in the intended order it still does |
| Orchestrator.DeliverOnce | src/main/java/de/richardvierhaus/nlq_gc/llm/AsyncLLMService.java:180-185 | a cached result is delivered once; the second lookup yields NOT_AVAILABLE |
| Evaluation.LowerChar | src/main/java/de/richardvierhaus/nlq_gc/evaluation/ResponseChecker.java:136-137 | `Character.toLowerCase` on the ASCII range: a capital becomes its small letter, every other character stays |
| Evaluation.Lower | src/main/java/de/richardvierhaus/nlq_gc/evaluation/ResponseChecker.java:136-137 | `toLowerCase` keeps the length and leaves no capital letter, and a text without capitals is returned unchanged |
| Evaluation.LowerIdempotent | src/main/java/de/richardvierhaus/nlq_gc/evaluation/ResponseChecker.java:136-137 | lower-casing twice is lower-casing once |
| Evaluation.EqualsIgnoreCase | src/main/java/de/richardvierhaus/nlq_gc/evaluation/ResponseChecker.java:84 | `String.equalsIgnoreCase` on the ASCII range: the two texts agree once lower-cased |
| Evaluation.IndexIgnoringCase | src/main/java/de/richardvierhaus/nlq_gc/evaluation/ResponseChecker.java:152-153 | the corrected lookup yields -1 or an index of the keyword list |
| Evaluation.IndexIgnoringCaseFinds | src/main/java/de/richardvierhaus/nlq_gc/evaluation/ResponseChecker.java:150-155 | the corrected lookup is -1 exactly when no keyword equals the key ignoring case, else the first such keyword |
| Evaluation.LookupAsWritten | src/main/java/de/richardvierhaus/nlq_gc/evaluation/ResponseChecker.java:152-153 | the source's lookup of the lower-cased key: -1 exactly when that text is not a keyword, else an index holding it |
| Evaluation.AsWrittenLookupMisses | src/main/java/de/richardvierhaus/nlq_gc/evaluation/ResponseChecker.java:150-155 | for the keywords of query Q1, the keyword check passes but the source's lookup of "Maria" is -1 while the corrected lookup is 0 |
| Evaluation.LookupsAgreeOnLowerCase | src/main/java/de/richardvierhaus/nlq_gc/evaluation/ResponseChecker.java:150-155 | on a keyword list without capitals the corrected and the source's lookups agree |
| Evaluation.LookupsDisagreeOnCaseTwins | src/main/java/de/richardvierhaus/nlq_gc/evaluation/ResponseChecker.java:150-155 | on keywords "Play" and "play" with key "PLAY" both lookups succeed, the source's at 1 and the corrected one at 0 |
| Evaluation.ExpectErrors | src/main/java/de/richardvierhaus/nlq_gc/evaluation/Execution.java:57-59 | errors are expected exactly when the query has no expected keyword list or no expected matrix |
| Evaluation.CheckErrors | src/main/java/de/richardvierhaus/nlq_gc/evaluation/ResponseChecker.java:65-72 | without error text it holds exactly when the query expects keywords and either a matrix or a keyword prompt, i.e. nothing to fail; when no keywords are expected it holds only with error text and no dictionary entries |
| Evaluation.CheckFalseErrors | src/main/java/de/richardvierhaus/nlq_gc/evaluation/ResponseChecker.java:74-77 | when no errors are expected it holds exactly when the response has no error text; on a keyword prompt without expected keywords it always holds |
| Evaluation.AllMatched | src/main/java/de/richardvierhaus/nlq_gc/evaluation/ResponseChecker.java:83-86 | the entry loop succeeds exactly when every entry is found in the keyword list |
| Evaluation.EntriesFound | src/main/java/de/richardvierhaus/nlq_gc/evaluation/ResponseChecker.java:83-86 | an entry is found exactly when some keyword equals it ignoring case |
| Evaluation.CheckKeywords | src/main/java/de/richardvierhaus/nlq_gc/evaluation/ResponseChecker.java:79-88 | holds exactly when the sizes are equal and every entry equals some expected keyword ignoring case |
| Evaluation.CheckMatrixSize | src/main/java/de/richardvierhaus/nlq_gc/evaluation/ResponseChecker.java:90-100 | holds exactly when the row count is the dictionary size and every row is as long as the row count |
| Evaluation.DiagonalValues | src/main/java/de/richardvierhaus/nlq_gc/evaluation/ResponseChecker.java:103-113 | the set `diagonalValues`: every value on the diagonal |
| Evaluation.OtherValues | src/main/java/de/richardvierhaus/nlq_gc/evaluation/ResponseChecker.java:104-113 | the set `otherValues`: every value off the diagonal |
| Evaluation.IdentityIds | src/main/java/de/richardvierhaus/nlq_gc/evaluation/ResponseChecker.java:118-119 | the ids of the identity encoding mappings, against which the diagonal is tested |
| Evaluation.RelationIds | src/main/java/de/richardvierhaus/nlq_gc/evaluation/ResponseChecker.java:123-124 | the ids of the other encoding mappings, against which the values off the diagonal are tested |
| Evaluation.CheckMatrixValues | src/main/java/de/richardvierhaus/nlq_gc/evaluation/ResponseChecker.java:102-125 | holds exactly when every diagonal value is an identity-mapping id and every other value is 0 or a non-identity id |
| Evaluation.RowConflictsIff | src/main/java/de/richardvierhaus/nlq_gc/evaluation/ResponseChecker.java:135-141 | the row's recursive conflict flag is set exactly when some column of the row conflicts |
| Evaluation.ConflictsBeforeIff | src/main/java/de/richardvierhaus/nlq_gc/evaluation/ResponseChecker.java:134-143 | the recursive conflict flag is set exactly when some visited position conflicts |
| Evaluation.Covered | src/main/java/de/richardvierhaus/nlq_gc/evaluation/ResponseChecker.java:136-138 | with the corrected case-insensitive lookup (Findings row 2), every pair of dictionary entries the matching loop visits is found in the keyword list at an index inside the expected matrix |
| Evaluation.GetValueByKeywords | src/main/java/de/richardvierhaus/nlq_gc/evaluation/ResponseChecker.java:150-155 | the expected value at the positions of the two keywords, located with the corrected case-insensitive lookup (Findings row 2) and defined only where both of those lookups hit; the source's case-sensitive lookup of the lower-cased key can miss where they hit, as for query Q1; `ExpectedAtHits` ties it to the matching loop |
| Evaluation.ExpectedAtHits | src/main/java/de/richardvierhaus/nlq_gc/evaluation/ResponseChecker.java:136-138 | where every lookup hits, the expected value is `getValueByKeywords` of the two dictionary entries |
| Evaluation.Similarity | src/main/java/de/richardvierhaus/nlq_gc/evaluation/ResponseChecker.java:145 | `matchingEntries / (n * n)` as an exact fraction, with the count of agreeing positions over the number of positions |
| Evaluation.Exceeds85 | src/main/java/de/richardvierhaus/nlq_gc/evaluation/ResponseChecker.java:147 | `similarity > 0.85`, as `num * 20 > 17 * den`; false for an empty matrix (0 / 0), as the NaN comparison is |
| Evaluation.BelowOne | src/main/java/de/richardvierhaus/nlq_gc/evaluation/ResponseChecker.java:55 | `similarity < 1`, as `num < den`; false for an empty matrix (0 / 0), as the NaN comparison is |
| Evaluation.RowMatchesBounded | src/main/java/de/richardvierhaus/nlq_gc/evaluation/ResponseChecker.java:135-140 | a row counts at most its visited columns, and all of them exactly when each agrees |
| Evaluation.MatchesBounded | src/main/java/de/richardvierhaus/nlq_gc/evaluation/ResponseChecker.java:134-145 | the count is at most the number of visited positions, and equals it exactly when every position agrees |
| Evaluation.AgreementExcludesConflict | src/main/java/de/richardvierhaus/nlq_gc/evaluation/ResponseChecker.java:140-141 | a matrix that agrees everywhere has no false entry |
| Evaluation.CountMatches | src/main/java/de/richardvierhaus/nlq_gc/evaluation/ResponseChecker.java:127-143 | the nested loops count exactly the agreeing positions and flag a false entry exactly when some position has both values nonzero and different |
| Evaluation.GradeMatrix | src/main/java/de/richardvierhaus/nlq_gc/evaluation/ResponseChecker.java:48-56 | the matrix stages give only matrix verdicts or SUCCESS, and NON_MATCHING_MATRIX exactly when a matrix is present but has the wrong size |
| Evaluation.Grade | src/main/java/de/richardvierhaus/nlq_gc/evaluation/ResponseChecker.java:32-59 | the whole cascade: NON_PARSABLE_JSON exactly on a syntax error, and a matrix verdict only for a parsed graph-code response with nothing expected to fail |
| Evaluation.ExpectedErrorsDecideAlone | src/main/java/de/richardvierhaus/nlq_gc/evaluation/ResponseChecker.java:41-43 | when errors are expected, `checkErrors` alone decides between SUCCESS and EXPECTED_ERROR |
| Evaluation.KeywordPromptSkipsMatrix | src/main/java/de/richardvierhaus/nlq_gc/evaluation/ResponseChecker.java:46-48 | a keyword prompt never reaches a matrix verdict |
| Evaluation.MatrixStageSuccessIff | src/main/java/de/richardvierhaus/nlq_gc/evaluation/ResponseChecker.java:48-56 | the matrix stages grade SUCCESS exactly when size, values and lookups pass, the matrix is non-empty and every entry agrees with the expected matrix |
| Evaluation.GraphCodeSuccessIff | src/main/java/de/richardvierhaus/nlq_gc/evaluation/ResponseChecker.java:41-57 | a graph-code response with nothing expected to fail grades SUCCESS exactly when it reaches the matching stage without error text and reproduces the expected matrix exactly |
| Evaluation.WarningMeansNearMiss | src/main/java/de/richardvierhaus/nlq_gc/evaluation/ResponseChecker.java:55-56 | WARNING_MATRIX means no false entry, similarity above 0.85, and at least one entry off |
| Evaluation.GradedUnlessNull | src/main/java/de/richardvierhaus/nlq_gc/evaluation/ResponseChecker.java:32-59 | for a well-formed query, a response with dictionary and matrix present always gets a verdict: with the corrected lookup `check` cannot crash on it |
| Evaluation.ResponseChecker.constructor | src/main/java/de/richardvierhaus/nlq_gc/evaluation/ResponseChecker.java:21-26 | the state starts as SUCCESS and no response field is set |
| Evaluation.ResponseChecker.Check | src/main/java/de/richardvierhaus/nlq_gc/evaluation/ResponseChecker.java:32-59 | a non-SUCCESS grade of the cascade becomes the state, and the state is left as it was when the grade is SUCCESS or the cascade crashes; it crashes exactly when the cascade with the corrected lookup does, the parsed fields are copied, and the similarity is written exactly when matching runs |
| Evaluation.ResponseChecker.CheckMatrixMatching | src/main/java/de/richardvierhaus/nlq_gc/evaluation/ResponseChecker.java:127-148 | stores the similarity `matching / (n * n)` and holds exactly when there is no false entry and the similarity exceeds 0.85 |
| Nlq.Filled | src/main/java/de/richardvierhaus/nlq_gc/nlq/NLQService.java:52-55 | a new builder after `replaceIfRequired` of QUERY, USER and ENCODING in that order; `FilledLeftover` states what is left outstanding |
| Nlq.SubstitutedKeeps | src/main/java/de/richardvierhaus/nlq_gc/nlq/PromptBuilder.java:52-57 | one substitution step on a duplicate-free list removes its placeholder and keeps every other one |
| Nlq.FilledLeftover | src/main/java/de/richardvierhaus/nlq_gc/nlq/NLQService.java:52-55 | with no placeholder declared twice, after filling QUERY, USER and ENCODING exactly [KEYWORDS] is outstanding if the prompt requires keywords, and nothing otherwise |
| Nlq.FilledBuilder | src/main/java/de/richardvierhaus/nlq_gc/nlq/NLQService.java:52-55 | a new builder of the kind, with QUERY, USER and ENCODING substituted where required |
| Nlq.NLQService.constructor | src/main/java/de/richardvierhaus/nlq_gc/nlq/NLQService.java:20-22 | the service uses the given orchestrator and encoding text |
| Nlq.NLQService.HandleNLQ | src/main/java/de/richardvierhaus/nlq_gc/nlq/NLQService.java:50-66 | with keywords required, it succeeds exactly when the keyword prompt finalises and the graph-code builder misses exactly KEYWORDS; the keyword prompt is then submitted with that builder as follow-up. Otherwise it succeeds exactly when the filled graph-code prompt finalises, and exactly that prompt is submitted. On failure nothing is dispatched |
| Nlq.NLQService.GetGraphCode | src/main/java/de/richardvierhaus/nlq_gc/nlq/NLQService.java:75-77 | the orchestrator's lookup for the same id: a cached result is returned and removed, a pending keyword entity is returned with nothing changed, a pending graph code is settled by its reply or stays, an unknown id yields NOT_AVAILABLE, and the submissions and owned objects are unchanged |

## Left out

- Scheduler and concurrency: `init`, `shutdown`, the `running` flag, the poll interval and the concurrent maps are not modelled. `Sweep` is one scheduled run, executed sequentially. The singleton accessors are replaced by explicit instances.
- Language-model clients: the HTTP clients and the model-to-client lookup are the `Backend` oracle. Transport errors are not modelled.
- JSON: parsing is not modelled. Replies arrive already parsed as `Reply`, and graded responses as `JsonParse`. A parse exception in the keyword pass is not modelled; in the source it drops the entry and escapes the sweep. `gson.toJson` is the parameter `toJson`.
- `readPrompt`: reading templates from the class path is I/O. The template comes in with the `PromptKind`.
- The clock, random UUIDs and the encoding service are parameters: `now`, a fresh `id` that the caller guarantees is unused, and the `encodings` text given to the `NLQService` constructor (`EncodingService` persistence is not part of this model).
- REST controllers, the evaluation driver (`Evaluator`, and the file and date handling of `Execution`), logging and `toString` are not part of this model. `Execution` is reduced to its query and the keyword-prompt flag.
- A null `promptKeyword` argument, and null rows or entries inside a parsed matrix or dictionary, are not modelled: lists and rows are plain sequences, and only the whole field may be null.
- Sharing one builder between two dispatches is not modelled: `AddKeywordPrompt` takes ownership of a builder the orchestrator does not already hold.
- `IsWhitespace`, `Lower`: only ASCII whitespace and ASCII case mapping are modelled, not the full Unicode tables of `Character.isWhitespace` and `toLowerCase`.
- Evaluation.ResponseChecker.CheckMatrixMatching: the similarity is the exact fraction, not the double the source computes. Double rounding next to 0.85, and int overflow of `n * n` for sides above 46340, are not modelled. When `n == 0` both comparisons are false, as they are for NaN.
- Evaluation.ResponseChecker.Check: it grades with the corrected case-insensitive lookup, not the source's lookup of the lower-cased key. It therefore grades where the source throws at ResponseChecker.java:154 (query Q1, whose keyword "Maria" is not lower case). It also reads a different row where both lookups succeed but disagree: on keywords "Play" and "play" with key "PLAY" the source reads row 1 and the model row 0 (`LookupsDisagreeOnCaseTwins`). The two agree on keyword lists without capitals (`LookupsAgreeOnLowerCase`).
- Orchestrator.AsyncLLMService.CheckKeywordTransactions: the loop postcondition states each transaction's new slot, the submissions, and that entities not waiting for keywords keep their fields. What a failed keyword transaction's entity records is stated in `FailKeywordTransaction`, not in the loop postcondition.
- The submissions log is a set: two identical submissions (same id, stage, model, prompt and handle) are one entry. The source's random UUIDs make a repeated id practically impossible; the model only requires that the id is not currently tracked.
- The backend's `submit` is a function of the model and the prompt, so two dispatches of the same prompt to the same model get the same handle and hence the same reply. The source's `handlePrompt` opens a new backend transaction on every call. No stated property depends on the difference.
- The five maps are one map of `Tx` records. A transaction in two maps at once is therefore not representable, and disjointness holds by construction. `MapsAgree` states it for the views.
- The builder texts are also recorded in the ghost map `texts`, so that loop specifications need no heap reads. The invariant ties them to the builders.
- Nlq.NLQService.HandleNLQ: it does not prove that the query, user and encoding texts occur in the final prompt. A query that itself contains a later token (say `[USER]`) is rewritten by the later substitution. `ReplaceAllInserts` states the single-step fact.
- Orchestrator.AsyncLLMService.GetGraphCode: the source tries the finished map before the pending-keyword map. In the model one id is in at most one map, so the order of the checks does not change the result.

## Findings

| source | as written | input that shows it | evidently intended | confidence | as-written member | corrected member |
|---|---|---|---|---|---|---|
| src/main/java/de/richardvierhaus/nlq_gc/llm/AsyncLLMService.java:244-247 | `addGCPrompt` stores the new graph-code handle under the id, then the `finally` block removes `transactionMapping[id]` | any keyword reply without error text: the chained id is pending graph code with no handle, so the later poll uses a null handle | remove the keyword handle first, then store the chained graph-code handle | not executed | Orchestrator.ChainedHandlesAsWritten, Orchestrator.AsyncLLMService.AsWrittenChainLosesHandle | Orchestrator.ChainedHandles, Orchestrator.AsyncLLMService.ChainKeywordTransaction |
| src/main/java/de/richardvierhaus/nlq_gc/evaluation/ResponseChecker.java:136-154 | the lower-cased response keyword is looked up with the case-sensitive `indexOf` in the expected list | query Q1 (expected keywords "Maria", "play", "basketball") with a response whose dictionary is the same list and passes `checkKeywords`: `indexOf("maria")` is -1 and the matrix read fails | look the keyword up ignoring case, like `checkKeywords` does | not executed | Evaluation.LookupAsWritten, Evaluation.AsWrittenLookupMisses, Evaluation.LookupsDisagreeOnCaseTwins | Evaluation.IndexIgnoringCase, Evaluation.IndexIgnoringCaseFinds, Evaluation.Covered, Evaluation.GetValueByKeywords, Evaluation.GradedUnlessNull |
