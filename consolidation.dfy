/**
 * The multi-model consolidation engine: it merges the responses of a parallel
 * fan-out into one code-review result. There are four outcomes: every model
 * failed; every successful answer was unparseable; one extra model call
 * consolidated the valid answers; or that call failed and the first
 * successful answer is returned unmerged.
 *
 * The collaborators are parameters: `parse` is the model-output JSON parser,
 * `reply` is what the extra call returned (or that it raised), `defaultModel`
 * is the configured default model and `systemPrompt` the consolidation prompt.
 */
module Consolidation {
  import opened Wrappers
  import opened JsonValues
  import opened Strings
  import opened Schemas
  import opened StableSort
  import opened IssueSort
  import opened Aggregates

  const AllFailedContent: string := "All models failed to complete the review."
  const AllFailedError: string := "All models failed"
  const InvalidJsonError: string := "All models returned invalid JSON"
  const NoSummary: string := "No summary provided."
  const NameSeparator: string := ", "
  const BlockSeparator: string := "\n\n"
  const ResponsesOpen: string := "<MODEL_RESPONSES>\n"
  const ResponsesClose: string :=
    "\n</MODEL_RESPONSES>\n\nPlease consolidate these code review results following the instructions in the system prompt."

  function AllUnparseableContent(count: nat): string
  {
    "All " + NatToString(count) + " model(s) returned unparseable JSON responses. No results to consolidate."
  }

  // ---------------------------------------------------------------------------
  // Selecting the inputs

  /** The responses whose status is "success", in input order. */
  function Successful(rs: seq<ModelResponse>): seq<ModelResponse>
  {
    if rs == [] then []
    else (if rs[0].status == "success" then [rs[0]] else []) + Successful(rs[1..])
  }

  /** The successful responses are exactly the inputs whose status is "success". */
  lemma {:induction false} SuccessfulMembers(rs: seq<ModelResponse>)
    ensures forall x :: x in Successful(rs) <==> x in rs && x.status == "success"
    ensures |Successful(rs)| <= |rs|
  {
    if rs != [] {
      SuccessfulMembers(rs[1..]);
      assert rs == [rs[0]] + rs[1..];
    }
  }

  /** The first successful response is the earliest input whose status is "success". */
  lemma {:induction false} FirstSuccessfulIsEarliest(rs: seq<ModelResponse>)
    requires Successful(rs) != []
    ensures exists i :: 0 <= i < |rs| && rs[i] == Successful(rs)[0] && rs[i].status == "success" &&
                        forall j :: 0 <= j < i ==> rs[j].status != "success"
  {
    if rs[0].status != "success" {
      FirstSuccessfulIsEarliest(rs[1..]);
      var i :| 0 <= i < |rs[1..]| && rs[1..][i] == Successful(rs[1..])[0] && rs[1..][i].status == "success" &&
        forall j :: 0 <= j < i ==> rs[1..][j].status != "success";
      assert rs[i + 1] == Successful(rs)[0];
      forall j | 0 <= j < i + 1
        ensures rs[j].status != "success"
      {
        if j > 0 { assert rs[j] == rs[1..][j - 1]; }
      }
    } else {
      assert rs[0] == Successful(rs)[0];
    }
  }

  /** A successful response is kept when its content parses to a non-empty JSON object. */
  predicate IsValid(parse: string -> Json, r: ModelResponse)
  {
    var parsed := parse(r.content);
    parsed.JObj? && parsed.fields != map[]
  }

  /** The valid responses, in input order. */
  function ValidResults(parse: string -> Json, rs: seq<ModelResponse>): seq<ModelResponse>
  {
    if rs == [] then []
    else (if IsValid(parse, rs[0]) then [rs[0]] else []) + ValidResults(parse, rs[1..])
  }

  /** The valid responses are exactly the inputs whose content parses to a non-empty object. */
  lemma {:induction false} ValidResultsMembers(parse: string -> Json, rs: seq<ModelResponse>)
    ensures forall x :: x in ValidResults(parse, rs) <==> x in rs && IsValid(parse, x)
    ensures |ValidResults(parse, rs)| <= |rs|
  {
    if rs != [] {
      ValidResultsMembers(parse, rs[1..]);
      assert rs == [rs[0]] + rs[1..];
    }
  }

  /** Filtering keeps order: filtering a concatenation concatenates the filtered parts. */
  lemma {:induction false} ValidResultsAppend(parse: string -> Json, a: seq<ModelResponse>, b: seq<ModelResponse>)
    ensures ValidResults(parse, a + b) == ValidResults(parse, a) + ValidResults(parse, b)
  {
    if a == [] {
      assert a + b == b;
    } else {
      assert (a + b)[1..] == a[1..] + b;
      ValidResultsAppend(parse, a[1..], b);
    }
  }

  function Names(rs: seq<ModelResponse>): seq<string>
  {
    seq(|rs|, i requires 0 <= i < |rs| => rs[i].metadata.model)
  }

  // ---------------------------------------------------------------------------
  // Aggregating the metadata

  datatype TokenKind = Prompt | Completion | Total

  function TokensOf(md: Metadata, kind: TokenKind): nat
  {
    match kind
    case Prompt => OrZero(md.promptTokens)
    case Completion => OrZero(md.completionTokens)
    case Total => OrZero(md.totalTokens)
  }

  function TokenCount(kind: TokenKind): ModelResponse -> nat
  {
    (r: ModelResponse) => TokensOf(r.metadata, kind)
  }

  function Latency(r: ModelResponse): nat
  {
    OrZero(r.metadata.latencyMs)
  }

  /** `sum(r.metadata.<kind>_tokens or 0 for r in rs)`. */
  function SumTokens(rs: seq<ModelResponse>, kind: TokenKind): nat
  {
    Sum(rs, TokenCount(kind))
  }

  /** `max((r.metadata.latency_ms or 0 for r in rs), default=0)`. */
  function MaxLatency(rs: seq<ModelResponse>): nat
  {
    Max(rs, Latency)
  }

  /**
   * The aggregates do not depend on the order in which the fanned-out models
   * are listed: any reordering of the valid responses gives the same token
   * sums and the same maximum latency.
   */
  lemma AggregationIsOrderIndependent(a: seq<ModelResponse>, b: seq<ModelResponse>)
    requires multiset(a) == multiset(b)
    ensures forall kind :: SumTokens(a, kind) == SumTokens(b, kind)
    ensures MaxLatency(a) == MaxLatency(b)
  {
    forall kind
      ensures SumTokens(a, kind) == SumTokens(b, kind)
    {
      SumPermutation(a, b, TokenCount(kind));
    }
    MaxPermutation(a, b, Latency);
  }

  // ---------------------------------------------------------------------------
  // The consolidation prompt

  function ModelBlock(r: ModelResponse): string
  {
    "<MODEL name=\"" + r.metadata.model + "\">\n" + r.content + "\n</MODEL>"
  }

  function ModelBlocks(rs: seq<ModelResponse>): seq<string>
  {
    seq(|rs|, i requires 0 <= i < |rs| => ModelBlock(rs[i]))
  }

  function UserMessage(rs: seq<ModelResponse>): string
  {
    ResponsesOpen + Join(ModelBlocks(rs), BlockSeparator) + ResponsesClose
  }

  /**
   * `_build_consolidation_messages`: the system prompt, then one user message
   * holding one tagged block per response.
   */
  method BuildConsolidationMessages(systemPrompt: string, results: seq<ModelResponse>)
    returns (messages: seq<Message>)
    ensures |messages| == 2
    ensures messages[0] == Message("system", systemPrompt)
    ensures messages[1] == Message("user", UserMessage(results))
  {
    var blocks: seq<string> := [];
    for i := 0 to |results|
      invariant |blocks| == i
      invariant forall j :: 0 <= j < i ==> blocks[j] == ModelBlock(results[j])
    {
      blocks := blocks + [ModelBlock(results[i])];
    }
    assert blocks == ModelBlocks(results);
    var modelsXml := Join(blocks, BlockSeparator);
    var userMessage := ResponsesOpen + modelsXml + ResponsesClose;
    messages := [Message("system", systemPrompt), Message("user", userMessage)];
  }

  lemma ModelBlocksSlices(rs: seq<ModelResponse>, i: nat)
    requires i < |rs|
    ensures |ModelBlocks(rs)| == |rs| && ModelBlocks(rs)[i] == ModelBlock(rs[i])
    ensures ModelBlocks(rs)[..i] == ModelBlocks(rs[..i])
    ensures ModelBlocks(rs)[i + 1..] == ModelBlocks(rs[i + 1..])
  {
  }

  /**
   * The user message holds the i-th response's block, tagged with its model
   * name, after the blocks of the responses before it and before the blocks of
   * the responses after it, neighbouring blocks separated by a blank line.
   */
  lemma UserMessageEmbedsBlock(rs: seq<ModelResponse>, i: nat)
    requires i < |rs|
    ensures UserMessage(rs) ==
      ResponsesOpen
      + (Join(ModelBlocks(rs[..i]), BlockSeparator) + (if i > 0 then BlockSeparator else "")
         + ModelBlock(rs[i])
         + (if i + 1 < |rs| then BlockSeparator else "") + Join(ModelBlocks(rs[i + 1..]), BlockSeparator))
      + ResponsesClose
  {
    ModelBlocksSlices(rs, i);
    JoinAt(ModelBlocks(rs), BlockSeparator, i);
  }

  // ---------------------------------------------------------------------------
  // Reading the consolidation reply

  /** What the consolidated result takes from the reply's JSON object. */
  datatype Summary = Summary(content: string, status: string, issues: Option<seq<Json>>)

  /** The `issues_found` values a consolidation reply may carry without raising. */
  predicate IssuesAcceptable(v: Json)
  {
    v.JNull? || (v.JArr? && forall i :: 0 <= i < |v.items| ==> HasSortableLocation(v.items[i]))
  }

  /**
   * Builds the consolidated content, status and issues from the reply's JSON
   * object: the issue list is re-sorted when non-empty; a message or status
   * that is not a string, or issues that are neither null nor a list the sort
   * accepts, make the construction raise (`None`).
   */
  function ReadConsolidated(fields: map<string, Json>): (r: Option<Summary>)
    ensures r.None? <==>
      ("message" in fields && !fields["message"].JStr?) ||
      ("status" in fields && !fields["status"].JStr?) ||
      ("issues_found" in fields && !IssuesAcceptable(fields["issues_found"]))
    ensures r.Some? ==>
      && (if "message" in fields then fields["message"] == JStr(r.value.content) else r.value.content == NoSummary)
      && (if "status" in fields then fields["status"] == JStr(r.value.status) else r.value.status == "success")
      && ("issues_found" !in fields ==> r.value.issues == Some([]))
      && ("issues_found" in fields ==> (r.value.issues.None? <==> fields["issues_found"].JNull?))
      && (r.value.issues.Some? && "issues_found" in fields ==>
            IsStableSortOf(r.value.issues.value, fields["issues_found"].items, LocationKey))
  {
    var issuesFound := GetOr(fields, "issues_found", JArr([]));
    var issues: Option<Option<seq<Json>>> :=
      if Truthy(issuesFound) then
        if issuesFound.JArr? then
          match SortIssuesByLocation(issuesFound.items)
          case Some(sorted) => Some(Some(sorted))
          case None => None
        else None
      else if issuesFound.JNull? then Some(None)
      else if issuesFound.JArr? then Some(Some([]))
      else None;
    var message := GetOr(fields, "message", JStr(NoSummary));
    var status := GetOr(fields, "status", JStr("success"));
    if issues.Some? && message.JStr? && status.JStr? then
      Some(Summary(message.s, status.s, issues.value))
    else None
  }

  /**
   * The summary of a consolidation call that returned with status "success"
   * and content that parses to a JSON object; `None` whenever the code falls
   * back instead.
   */
  function ConsolidationSummary(parse: string -> Json, reply: CallOutcome): Option<Summary>
  {
    if reply.Returned? && reply.response.status == "success" && parse(reply.response.content).JObj?
    then ReadConsolidated(parse(reply.response.content).fields)
    else None
  }

  // ---------------------------------------------------------------------------
  // The fallback's issue extraction

  /**
   * `_extract_issues_from_content` as written: the `issues_found` value of the
   * parsed content, whatever its type, or an empty list.
   */
  function ExtractIssuesAsWritten(parse: string -> Json, content: string): Json
  {
    var parsed := parse(content);
    if parsed.JObj? && "issues_found" in parsed.fields then parsed.fields["issues_found"] else JArr([])
  }

  /**
   * A content whose `issues_found` is a string: the as-written extraction hands
   * the string on, and it is not a value the result's `issues_found` field
   * (`list[dict] | None`) accepts.
   */
  lemma ExtractIssuesAsWrittenEscapesValidation()
    ensures
      var content := "{\"issues_found\": \"none\"}";
      var parse := (s: string) => if s == content then JObj(map["issues_found" := JStr("none")]) else JNull;
      !IsIssueList(ExtractIssuesAsWritten(parse, content))
  {
  }

  /**
   * The fallback's issue extraction, corrected: the same value whenever the
   * as-written one would be accepted by the result's `issues_found` field, and
   * an empty list otherwise.
   */
  function ExtractIssues(parse: string -> Json, content: string): (r: Option<seq<Json>>)
    ensures r.Some? ==> forall i :: 0 <= i < |r.value| ==> r.value[i].JObj?
    ensures var v := ExtractIssuesAsWritten(parse, content);
      if IsIssueList(v) then r == (if v.JNull? then None else Some(v.items)) else r == Some([])
  {
    var parsed := parse(content);
    if parsed.JObj? && "issues_found" in parsed.fields then
      var v := parsed.fields["issues_found"];
      if v.JNull? then None
      else if IsIssueList(v) then Some(v.items)
      else Some([])
    else Some([])
  }

  // ---------------------------------------------------------------------------
  // The engine

  /** The result of the two error paths: the named models, zeroed counters, no issues. */
  function ErrorResult(names: seq<string>, content: string, error: string): ReviewResult
  {
    ReviewResult(content, "error", Some(error), Some([]),
      Metadata(Join(names, NameSeparator), Some(0), Some(0), Some(0), Some(0), None, Some(names), None))
  }

  /**
   * The consolidated result: the summary's content, status and issues; token
   * counts summed over the valid responses plus the consolidation call's own;
   * latency the slowest valid response plus the consolidation call's.
   */
  function MergedResult(valid: seq<ModelResponse>, summary: Summary, md: Metadata, defaultModel: string): ReviewResult
  {
    ReviewResult(summary.content, summary.status, None, summary.issues,
      Metadata(
        Join(Names(valid), NameSeparator),
        Some(SumTokens(valid, Prompt) + OrZero(md.promptTokens)),
        Some(SumTokens(valid, Completion) + OrZero(md.completionTokens)),
        Some(SumTokens(valid, Total) + OrZero(md.totalTokens)),
        Some(MaxLatency(valid) + OrZero(md.latencyMs)),
        md.artifacts, Some(Names(valid)), Some(defaultModel)))
  }

  /** The fallback: the first successful response unmerged, with its issues extracted. */
  function FallbackResult(parse: string -> Json, first: ModelResponse): ReviewResult
  {
    ReviewResult(first.content, "success", None, ExtractIssues(parse, first.content),
      first.metadata.(sourceModels := None, consolidationModel := None))
  }

  /** What one consolidation produces: the result, and the extra model call made on the way. */
  datatype Outcome = Outcome(result: ReviewResult, request: Option<CallRequest>)

  function ConsolidationRequest(valid: seq<ModelResponse>, defaultModel: string, systemPrompt: string): CallRequest
  {
    CallRequest(defaultModel, [Message("system", systemPrompt), Message("user", UserMessage(valid))])
  }

  /** The outcome of `consolidate_model_results`, path by path. */
  function Consolidate(
    rawResults: seq<ModelResponse>, parse: string -> Json,
    defaultModel: string, systemPrompt: string, reply: CallOutcome): Outcome
  {
    var successful := Successful(rawResults);
    if successful == [] then
      Outcome(ErrorResult(Names(rawResults), AllFailedContent, AllFailedError), None)
    else
      var valid := ValidResults(parse, successful);
      if valid == [] then
        Outcome(ErrorResult(Names(successful), AllUnparseableContent(|successful|), InvalidJsonError), None)
      else
        var request := Some(ConsolidationRequest(valid, defaultModel, systemPrompt));
        match ConsolidationSummary(parse, reply)
        case Some(summary) => Outcome(MergedResult(valid, summary, reply.response.metadata, defaultModel), request)
        case None => Outcome(FallbackResult(parse, successful[0]), request)
  }

  /** The filter loop: the successful responses whose content parses to a non-empty object. */
  method FilterValid(parse: string -> Json, successful: seq<ModelResponse>)
    returns (valid: seq<ModelResponse>, filteredCount: nat)
    ensures valid == ValidResults(parse, successful)
    ensures filteredCount + |valid| == |successful|
  {
    valid := [];
    filteredCount := 0;
    for i := 0 to |successful|
      invariant valid == ValidResults(parse, successful[..i])
      invariant filteredCount + |valid| == i
    {
      ValidResultsAppend(parse, successful[..i], [successful[i]]);
      assert successful[..i + 1] == successful[..i] + [successful[i]];
      var parsed := parse(successful[i].content);
      if parsed.JObj? && parsed.fields != map[] {
        valid := valid + [successful[i]];
      } else {
        filteredCount := filteredCount + 1;
      }
    }
    assert successful[..|successful|] == successful;
  }

  /**
   * The merge step of the try block: the summed and maximised counters, plus
   * the consolidation call's own where it reported them.
   */
  method MergeResult(valid: seq<ModelResponse>, summary: Summary, md: Metadata, defaultModel: string)
    returns (result: ReviewResult)
    ensures result == MergedResult(valid, summary, md, defaultModel)
  {
    var names := Names(valid);
    var totalPromptTokens := SumTokens(valid, Prompt);
    var totalCompletionTokens := SumTokens(valid, Completion);
    var totalTokens := SumTokens(valid, Total);
    var maxSourceLatency := MaxLatency(valid);
    if md.totalTokens.Some? && md.totalTokens.value != 0 {
      totalTokens := totalTokens + md.totalTokens.value;
    }
    if md.promptTokens.Some? && md.promptTokens.value != 0 {
      totalPromptTokens := totalPromptTokens + md.promptTokens.value;
    }
    if md.completionTokens.Some? && md.completionTokens.value != 0 {
      totalCompletionTokens := totalCompletionTokens + md.completionTokens.value;
    }
    var totalLatency := maxSourceLatency + OrZero(md.latencyMs);
    var metadata := Metadata(
      Join(names, NameSeparator),
      Some(totalPromptTokens), Some(totalCompletionTokens), Some(totalTokens),
      Some(totalLatency), md.artifacts, Some(names), Some(defaultModel));
    result := ReviewResult(summary.content, summary.status, None, summary.issues, metadata);
  }

  /**
   * `consolidate_model_results`. `request` is the extra model call the engine
   * makes (none on the two error paths); `reply` is what that call returned.
   */
  method ConsolidateModelResults(
    rawResults: seq<ModelResponse>,
    parse: string -> Json,
    defaultModel: string,
    systemPrompt: string,
    reply: CallOutcome)
    returns (result: ReviewResult, request: Option<CallRequest>)
    ensures Outcome(result, request) == Consolidate(rawResults, parse, defaultModel, systemPrompt, reply)
  {
    var successful := Successful(rawResults);

    if successful == [] {
      var names := Names(rawResults);
      result := ErrorResult(names, AllFailedContent, AllFailedError);
      request := None;
      return;
    }

    var valid, filteredCount := FilterValid(parse, successful);

    if valid == [] {
      var names := Names(successful);
      result := ErrorResult(names, AllUnparseableContent(|successful|), InvalidJsonError);
      request := None;
      return;
    }

    var messages := BuildConsolidationMessages(systemPrompt, valid);
    assert messages == [Message("system", systemPrompt), Message("user", UserMessage(valid))];
    request := Some(CallRequest(defaultModel, messages));

    // Everything from the reply's status check to the construction of the
    // result can raise; every such case falls back.
    var summary := ConsolidationSummary(parse, reply);
    if summary.Some? {
      result := MergeResult(valid, summary.value, reply.response.metadata, defaultModel);
    } else {
      var first := successful[0];
      var issues := ExtractIssues(parse, first.content);
      var metadata := Metadata(
        first.metadata.model,
        first.metadata.promptTokens, first.metadata.completionTokens, first.metadata.totalTokens,
        first.metadata.latencyMs, first.metadata.artifacts, None, None);
      result := ReviewResult(first.content, "success", None, issues, metadata);
    }
  }

  // ---------------------------------------------------------------------------
  // What each path promises

  /** Exactly one extra model call, carrying the valid responses, is made when some response is valid. */
  lemma RequestIffSomeValid(
    rawResults: seq<ModelResponse>, parse: string -> Json,
    defaultModel: string, systemPrompt: string, reply: CallOutcome)
    ensures var o := Consolidate(rawResults, parse, defaultModel, systemPrompt, reply);
      var valid := ValidResults(parse, Successful(rawResults));
      && (o.request.Some? <==> valid != [])
      && (o.request.Some? ==>
            o.request.value.model == defaultModel &&
            o.request.value.messages == [Message("system", systemPrompt), Message("user", UserMessage(valid))])
  {
  }

  /** When every model failed, the result is an error naming every model, with zeroed counters. */
  lemma AllFailedOutcome(
    rawResults: seq<ModelResponse>, parse: string -> Json,
    defaultModel: string, systemPrompt: string, reply: CallOutcome)
    requires forall i :: 0 <= i < |rawResults| ==> rawResults[i].status != "success"
    ensures Consolidate(rawResults, parse, defaultModel, systemPrompt, reply) ==
      Outcome(ErrorResult(Names(rawResults), AllFailedContent, AllFailedError), None)
  {
    SuccessfulMembers(rawResults);
  }

  /**
   * When some model succeeded but none answered with a non-empty JSON object,
   * the result is an error naming the successful models and counting them.
   */
  lemma AllUnparseableOutcome(
    rawResults: seq<ModelResponse>, parse: string -> Json,
    defaultModel: string, systemPrompt: string, reply: CallOutcome)
    requires exists i :: 0 <= i < |rawResults| && rawResults[i].status == "success"
    requires forall i :: 0 <= i < |rawResults| && rawResults[i].status == "success" ==>
      !IsValid(parse, rawResults[i])
    ensures var successful := Successful(rawResults);
      Consolidate(rawResults, parse, defaultModel, systemPrompt, reply) ==
      Outcome(ErrorResult(Names(successful), AllUnparseableContent(|successful|), InvalidJsonError), None)
  {
    SomeSuccessful(rawResults);
    SuccessfulMembers(rawResults);
    NoValidResults(parse, Successful(rawResults));
  }

  lemma SomeSuccessful(rs: seq<ModelResponse>)
    requires exists i :: 0 <= i < |rs| && rs[i].status == "success"
    ensures Successful(rs) != []
  {
    SuccessfulMembers(rs);
    var i :| 0 <= i < |rs| && rs[i].status == "success";
    assert rs[i] in Successful(rs);
  }

  lemma {:induction false} NoValidResults(parse: string -> Json, rs: seq<ModelResponse>)
    requires forall x :: x in rs ==> !IsValid(parse, x)
    ensures ValidResults(parse, rs) == []
  {
    if rs != [] {
      assert rs[0] in rs;
      NoValidResults(parse, rs[1..]);
    }
  }

  /**
   * A consolidation call that succeeded with a readable summary gives the
   * merged result over the valid responses, and the call's own metadata.
   */
  lemma MergedOutcome(
    rawResults: seq<ModelResponse>, parse: string -> Json,
    defaultModel: string, systemPrompt: string, reply: CallOutcome)
    requires ValidResults(parse, Successful(rawResults)) != []
    requires ConsolidationSummary(parse, reply).Some?
    ensures reply.Returned? && reply.response.status == "success"
    ensures Consolidate(rawResults, parse, defaultModel, systemPrompt, reply).result ==
      MergedResult(ValidResults(parse, Successful(rawResults)), ConsolidationSummary(parse, reply).value,
        reply.response.metadata, defaultModel)
  {
  }

  /** The responses that are consolidated are successful inputs whose content parses to a non-empty object. */
  lemma ConsolidatedAreValidInputs(rawResults: seq<ModelResponse>, parse: string -> Json)
    ensures forall x :: x in ValidResults(parse, Successful(rawResults)) <==>
      x in rawResults && x.status == "success" && IsValid(parse, x)
  {
    SuccessfulMembers(rawResults);
    ValidResultsMembers(parse, Successful(rawResults));
  }

  lemma FallbackIsFirstSuccessful(
    rawResults: seq<ModelResponse>, parse: string -> Json,
    defaultModel: string, systemPrompt: string, reply: CallOutcome)
    requires ValidResults(parse, Successful(rawResults)) != []
    requires ConsolidationSummary(parse, reply).None?
    ensures Successful(rawResults) != []
    ensures Consolidate(rawResults, parse, defaultModel, systemPrompt, reply).result ==
      FallbackResult(parse, Successful(rawResults)[0])
  {
  }

  /**
   * When the consolidation call raised, failed or gave an unreadable summary,
   * the result is the earliest successful response, unmerged.
   */
  lemma FallbackOutcome(
    rawResults: seq<ModelResponse>, parse: string -> Json,
    defaultModel: string, systemPrompt: string, reply: CallOutcome)
    requires ValidResults(parse, Successful(rawResults)) != []
    requires ConsolidationSummary(parse, reply).None?
    ensures exists i :: 0 <= i < |rawResults| && rawResults[i].status == "success" &&
                        (forall j :: 0 <= j < i ==> rawResults[j].status != "success") &&
                        Consolidate(rawResults, parse, defaultModel, systemPrompt, reply).result ==
                          FallbackResult(parse, rawResults[i])
  {
    FallbackIsFirstSuccessful(rawResults, parse, defaultModel, systemPrompt, reply);
    FirstSuccessfulIsEarliest(rawResults);
  }

  /**
   * The metadata tells the paths apart: an error is reported exactly when no
   * extra call was made, a consolidation model is named exactly on a true
   * consolidation, and source models are missing exactly on the fallback.
   */
  lemma PathsAreObservable(
    rawResults: seq<ModelResponse>, parse: string -> Json,
    defaultModel: string, systemPrompt: string, reply: CallOutcome)
    ensures var o := Consolidate(rawResults, parse, defaultModel, systemPrompt, reply);
      var called := ValidResults(parse, Successful(rawResults)) != [];
      var merged := called && ConsolidationSummary(parse, reply).Some?;
      && (o.result.error.Some? <==> o.request.None?)
      && (o.result.metadata.consolidationModel.Some? <==> merged)
      && (o.result.metadata.sourceModels.None? <==> called && !merged)
  {
    if Successful(rawResults) == [] {
      assert ValidResults(parse, Successful(rawResults)) == [];
    }
  }

  /**
   * Every path hands the result's `issues_found` field a value it accepts:
   * no issues, or a list of JSON objects.
   */
  lemma ResultIssuesAreObjects(
    rawResults: seq<ModelResponse>, parse: string -> Json,
    defaultModel: string, systemPrompt: string, reply: CallOutcome)
    ensures var r := Consolidate(rawResults, parse, defaultModel, systemPrompt, reply).result;
      r.issues.Some? ==> forall i :: 0 <= i < |r.issues.value| ==> r.issues.value[i].JObj?
  {
    var successful := Successful(rawResults);
    if successful != [] && ValidResults(parse, successful) != [] {
      var summary := ConsolidationSummary(parse, reply);
      if summary.Some? && summary.value.issues.Some? {
        var fields := parse(reply.response.content).fields;
        if "issues_found" in fields {
          SortedIssuesAreObjects(summary.value.issues.value, fields["issues_found"].items);
        }
      }
    }
  }
}
