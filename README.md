# Multi-model consolidation engine, modelled in Dafny

The multi-model code-review tool fans one review request out to several
language models in parallel. It then merges their answers into one result in
`consolidate_model_results` (`multi_mcp/utils/consolidation.py`). That
function has four outcomes:

- **All failed.** No model succeeded. The result is an error that names every
  model and carries zeroed counters.
- **All unparseable.** Some models succeeded, but none answered with a
  non-empty JSON object. The result is an error that names and counts the
  successful models.
- **Consolidated.** The valid answers are wrapped in a two-message prompt and
  sent to the default model. Its JSON summary becomes the result:
  - the issue list is re-sorted by location;
  - token counts are summed over the valid answers plus the consolidation
    call's own;
  - latency is the slowest valid answer's plus the consolidation call's.
- **Fallback.** The consolidation call fails, or its output cannot be read.
  The first successful answer is returned unmerged. Its issues are re-extracted
  from its own content. The engine model uses the corrected extraction
  described under "Findings", so where the code raises on a malformed
  `issues_found`, the model returns the fallback result with no issues.

The model has one module per concern:

- `Wrappers`: `Option`.
- `JsonValues`: decoded JSON values, Python truthiness and `dict.get`.
- `Strings`: `sep.join`, Python's `str` ordering and the decimal rendering of
  a count.
- `Schemas`: the response, metadata, result and message records.
- `StableSort`: what `sorted(xs, key=...)` computes, and its uniqueness.
- `IssueSort`: the location sort of issues.
- `Aggregates`: `sum` and `max` over a sequence, and their independence from
  order.
- `Consolidation`: the engine itself.

The engine is an imperative method, `ConsolidateModelResults`, and two loops,
`FilterValid` and `BuildConsolidationMessages`. It is proved equal to the pure
`Consolidate`, about which each path's promise is proved as a lemma.

Collaborators that are not part of this model are parameters:

- `parse_llm_json` is a total `parse: string -> Json`. A parse failure is
  `JNull`.
- The awaited `execute_single` call is split in two. The method returns the
  request it would make. The caller passes in the reply as a `CallOutcome`
  (`Raised`, or `Returned(response)`).
- `settings.default_model` is the `defaultModel` parameter.
- `CODEREVIEW_CONSOLIDATION_PROMPT` is the `systemPrompt` parameter.

## Model

| member | source | states |
|---|---|---|
| Consolidation.ConsolidateModelResults | multi_mcp/utils/consolidation.py:38-206 | the result and the extra model call are exactly those of `Consolidate`, on every path |
| Consolidation.FilterValid | multi_mcp/utils/consolidation.py:63-75 | the loop keeps exactly the successful responses whose content parses to a non-empty object, in input order, and the filtered count plus the kept count is the number of successful responses |
| Consolidation.BuildConsolidationMessages | multi_mcp/utils/consolidation.py:231-252 | exactly two messages: the system prompt, then a user message wrapping the tagged per-model blocks joined by blank lines |
| Consolidation.UserMessageEmbedsBlock | multi_mcp/utils/consolidation.py:234-247 | the i-th response appears in the user message as its own `<MODEL name=...>` block, after the blocks of the responses before it and before those after it |
| Consolidation.RequestIffSomeValid | multi_mcp/utils/consolidation.py:77-113 | an extra model call is made if and only if some successful response is valid; it goes to the default model and carries only the valid responses |
| Consolidation.AllFailedOutcome | multi_mcp/utils/consolidation.py:39-61 | when no input succeeded, the outcome is the error result naming every input model, with zeroed counters and no call made |
| Consolidation.AllUnparseableOutcome | multi_mcp/utils/consolidation.py:63-97 | when some input succeeded but none is valid, the outcome is the error result naming and counting the successful models, and no call is made |
| Consolidation.MergedOutcome | multi_mcp/utils/consolidation.py:115-174 | a readable summary implies the call returned with status "success", and the result is the merge of the summary over the valid responses with the call's own metadata |
| Consolidation.MergeResult | multi_mcp/utils/consolidation.py:126-160 | the `if count: total += count` updates give the valid responses' sums plus the call's own counts (`None` and 0 add nothing); latency is the maximum plus the call's latency |
| Consolidation.ConsolidatedAreValidInputs | multi_mcp/utils/consolidation.py:39-71 | a response is consolidated if and only if it is an input with status "success" whose content parses to a non-empty object |
| Consolidation.FallbackOutcome | multi_mcp/utils/consolidation.py:176-206 | when the call raised, failed or gave an unreadable summary, the result is the earliest input with status "success", unmerged, with status "success" and no source or consolidation model |
| Consolidation.FirstSuccessfulIsEarliest | multi_mcp/utils/consolidation.py:179 | `successful[0]` is an input with status "success", and no earlier input has that status |
| Consolidation.PathsAreObservable | multi_mcp/utils/consolidation.py:52-206 | the error field is set exactly when no call was made; a consolidation model is named exactly on a true consolidation; source models are missing exactly on the fallback |
| Consolidation.ResultIssuesAreObjects | multi_mcp/utils/consolidation.py:162-206 | on every path the result's issues are `None` or a list of JSON objects, the values its `list[dict]` or `None` field accepts |
| Consolidation.SuccessfulMembers | multi_mcp/utils/consolidation.py:39 | the successful responses are exactly the inputs whose status is "success" |
| Consolidation.ValidResultsMembers | multi_mcp/utils/consolidation.py:66-71 | the valid responses are exactly those whose content parses to a non-empty JSON object |
| Consolidation.AggregationIsOrderIndependent | multi_mcp/utils/consolidation.py:128-136 | reordering the valid responses changes none of the three token sums and not the maximum latency |
| Aggregates.Max | multi_mcp/utils/consolidation.py:136 | the maximum bounds every response's latency and is attained by one of them; it is 0 for no responses |
| Aggregates.SumPermutation | multi_mcp/utils/consolidation.py:130-132 | a sum does not depend on the order of its terms |
| Aggregates.MaxPermutation | multi_mcp/utils/consolidation.py:136 | a maximum does not depend on the order of its terms |
| Consolidation.ReadConsolidated | multi_mcp/utils/consolidation.py:162-174 | the reply object is unreadable exactly when its message or status is not a string, or its `issues_found` is neither null nor a list the sort accepts; otherwise the defaults "No summary provided." and "success" apply, a missing list gives no issues, and a present list comes back stably sorted by location |
| IssueSort.SortIssuesByLocation | multi_mcp/utils/consolidation.py:209-228 | the sort succeeds exactly when every issue is an object whose location is missing, null or a string; it then returns a stable sort of the issues by location key; an empty list comes back unchanged |
| IssueSort.SortedIssuesAreObjects | multi_mcp/utils/consolidation.py:228 | sorting a list of objects yields a list of objects |
| IssueSort.ExampleOrder | multi_mcp/utils/consolidation.py:221-228 | ["b.py:2", null, "a.py:1", ""] sorts to ["", "a.py:1", "b.py:2", null]: an empty location first, a null one last |
| IssueSort.MissingLocationIsNotLast | multi_mcp/utils/consolidation.py:224-225 | a missing location is keyed "~", so a location such as "~/notes.py:3" sorts after it |
| StableSort.SortByIsStableSort | multi_mcp/utils/consolidation.py:228 | the sort's output is ordered by key, is a permutation of its input, and keeps issues with equal keys in input order |
| StableSort.StableSortIsUnique | multi_mcp/utils/consolidation.py:228 | any two stable sorts of the same list by the same key are equal, so the location order is fully determined |
| Strings.LexLeTotal | multi_mcp/utils/consolidation.py:228 | any two strings are comparable under the `str` ordering |
| Strings.LexLeTransitive | multi_mcp/utils/consolidation.py:228 | the `str` ordering is transitive |
| Strings.LexLeAntisymmetric | multi_mcp/utils/consolidation.py:228 | strings that are ordered both ways are equal |
| Strings.JoinAt | multi_mcp/utils/consolidation.py:240 | every part sits in the joined string between the joins of the parts before and after it, with one separator on each side that has a neighbour |
| Strings.NatToStringRoundTrip | multi_mcp/utils/consolidation.py:92 | the count rendered in the unparseable-responses message reads back as that count |
| Consolidation.ExtractIssues | multi_mcp/utils/consolidation.py:255-263 | the corrected extraction agrees with the as-written one whenever that value is null or a list of objects, and otherwise gives an empty list; it never gives a value the result's field rejects |
| Consolidation.ExtractIssuesAsWrittenEscapesValidation | multi_mcp/utils/consolidation.py:255-263 | content whose `issues_found` is the string "none" makes the as-written extraction return a value that is not `None` or a list of objects |

## Left out

- The CLI execution adapter: subprocess lifecycle, environment injection,
  timeouts and the three output parsers. Its source is not part of this model.
- `parse_llm_json` is not part of this model. It is a parameter, and it is
  taken to be total: a parse failure yields `JNull`, which the filter rejects.
  Whatever the parser does beyond returning a decoded value is not modelled.
  Totality hides one path: the call on line 67 is outside any `try`, so if the
  parser raised there, the exception would escape the function. The model has
  no such path.
- `execute_single`, `settings` and the consolidation prompt text are not part
  of this model. They are parameters, and the reply to the one model call is an
  input. The call's artifact saving, and all logging, are not modelled.
- `multi_mcp/schemas/base.py` is not part of this model. The response and
  metadata records are typed from their uses here:
  - `content` and `status` are `str` fields;
  - token and latency counts are `nat`, and the source's `int | None` is
    `Option<nat>`.
  If that file restricts `status` to "success" and "error", a consolidation
  reply with any other status raises during validation and falls back. The
  model accepts any string there.
- The `hasattr`/`getattr` defaults and the `isinstance(artifacts, list)` guard
  on lines 157 and 185-195 exist for mock objects. In the typed model the
  attribute is always there and is always a list or `None`, so those branches
  cannot be taken.
- `SortIssuesByLocation`: a list whose locations are all numbers, or a
  one-element list with a non-string location, does not raise in Python. The
  model treats every non-string, non-null location as raising, which turns
  such a consolidation into a fallback.
- Floating-point JSON numbers are not modelled. JSON numbers are integers, so
  truthiness of `0.0` is not distinguished.
- Concurrency and `await` are not modelled. The one awaited call is split
  into a request and a reply, as described above.

The comment on line 223 of `multi_mcp/utils/consolidation.py` says a null
location sorts last. Line 225 keys a missing or null location as "~". That key
sorts before any location that extends "~" or starts with a higher character.
A location equal to "~" ties with a missing one, and the two keep their input
order. The model follows the code; `IssueSort.MissingLocationIsNotLast` shows
the case.

## Findings

| source | as written | input that shows it | evidently intended | confidence | as-written member | corrected member |
|---|---|---|---|---|---|---|
| multi_mcp/utils/consolidation.py:182-206, 255-263 | in the fallback, `_extract_issues_from_content` returns the `issues_found` value of the first result's JSON, whatever its type, and the result is built from it outside any `try` | the consolidation call fails, and the first successful response's content is `{"issues_found": "none"}`; the string is passed to the result's `list[dict]` or `None` field, validation raises, and the exception escapes the function | the fallback always returns a result; a value that is not null and not a list of objects is replaced by an empty list | medium, not executed (the schema base class is not part of this model) | Consolidation.ExtractIssuesAsWrittenEscapesValidation | Consolidation.ExtractIssues |

The engine model (`FallbackResult`, hence `Consolidate` and
`ConsolidateModelResults`) uses the corrected `ExtractIssues`. On the input in
the table, the model returns a fallback result with status "success" and an
empty issue list, where the code raises.
