/**
 * The trend-extraction pipeline: validating one decoded candidate into a
 * trend record, locating and decoding the JSON array in a completion, and
 * the analysis orchestrator's guard chain, with its read-through cache of
 * prompt templates.
 *
 * The provider call and `json.loads` are parameters: `call` maps the user
 * prompt to the completion text or the failure's message, and `decode` maps
 * the bracketed slice to the decoded elements or the decoder's message.
 */
module Grok {
  import opened Wrappers
  import opened Text
  import opened PyJson

  /** The focus areas the service accepts, in the order it lists them. */
  const FocusAreas: seq<string> := ["voice_ai_ux", "agent_orchestration", "durable_runtime"]

  /** The template file the service reads for each focus area. */
  const PromptFiles: map<string, string> := map[
    "voice_ai_ux" := "voice_ai_prompt.md",
    "agent_orchestration" := "agent_orchestration_prompt.md",
    "durable_runtime" := "durable_runtime_prompt.md"
  ]

  const NotConfigured := "XAI_API_KEY not configured"
  const NoArrayFound := "No JSON array found in response"
  const DecodeErrorPrefix := "JSON decode error: "

  /** A validated, normalised trend. */
  datatype TrendRecord = TrendRecord(
    toolName: Json,
    classification: string,
    confidenceScore: int,
    technicalInsight: Json,
    signalEvidence: Json,
    noiseIndicators: Json,
    architecturalVerdict: bool,
    focusArea: string)

  /** What validating one candidate does: keep a record, drop it, or raise. */
  datatype Screening = Accepted(record: TrendRecord) | Dropped | Aborted(error: PyError)

  /** The dictionary an analysis returns: the error envelope, or the parsed response. */
  datatype AnalysisResult =
    | Failure(error: string)
    | Analysis(focusArea: string, trends: seq<TrendRecord>, rawResponse: string, parseError: Option<string>)
  {
    /** The `trends` entry, which the error envelope carries as `[]`. */
    function Trends(): seq<TrendRecord>
    {
      if Failure? then [] else trends
    }
  }

  /**
   * What `json.loads` does with the bracketed slice (a text starting with `[`
   * decodes to a list): the elements, a JSONDecodeError with its message, or
   * another exception (an integer literal over the digit limit, nesting past
   * the recursion limit), which the parser does not catch.
   */
  datatype Decoded = Elements(items: seq<Json>) | DecodeError(message: string) | DecodeRaised(error: PyError)

  /** What the provider call does: return the completion text, or raise with a message. */
  datatype CallOutcome = Completed(text: string) | CallFailed(message: string)

  /** The records the pipeline stores: a known classification and a score in 1..100. */
  predicate WellFormed(rec: TrendRecord, focusArea: string)
  {
    && (rec.classification == "signal" || rec.classification == "noise")
    && 1 <= rec.confidenceScore <= 100
    && rec.focusArea == focusArea
  }

  /** `min(max(v, 1), 100)`. */
  function Clamp(v: int): (r: int)
    ensures 1 <= r <= 100
    ensures 1 <= v <= 100 ==> r == v
    ensures v < 1 ==> r == 1
    ensures v > 100 ==> r == 100
  {
    if v < 1 then 1 else if v > 100 then 100 else v
  }

  /** `trend.get(key, default)` on a dict. */
  function Get(fields: map<string, Json>, key: string, default: Json): Json
  {
    if key in fields then fields[key] else default
  }

  /** The loop over the required fields: `False` as soon as one is not `in` the candidate. */
  function HasRequiredFields(trend: Json): (r: Outcome<bool>)
    ensures trend.JObj? ==> r == Returned("tool_name" in trend.fields && "classification" in trend.fields)
    ensures trend.JArr? ==> r == Returned(JStr("tool_name") in trend.items && JStr("classification") in trend.items)
    ensures trend.JStr? ==> r == Returned(Contains(trend.s, "tool_name") && Contains(trend.s, "classification"))
    ensures r.Raised? <==> trend.JNull? || trend.JBool? || trend.JInt?
    ensures r.Raised? ==> r.error == NotIterable(TypeName(trend))
  {
    match Member(trend, "tool_name")
    case Raised(e) => Raised(e)
    case Returned(found) => if !found then Returned(false) else Member(trend, "classification")
  }

  /**
   * `_validate_trend`: checks the required fields, lower-cases the
   * classification and keeps only `signal`/`noise`, clamps the score (default
   * 50) into 1..100, fills in the defaults and attaches the caller's focus area.
   */
  function ValidateTrend(trend: Json, focusArea: string): (r: Screening)
    ensures trend.JObj? && ("tool_name" !in trend.fields || "classification" !in trend.fields) ==> r == Dropped
    ensures !trend.JObj? ==> !r.Accepted?
    // `in` on None, a bool or a number raises
    ensures trend.JNull? || trend.JBool? || trend.JInt? ==> r == Aborted(NotIterable(TypeName(trend)))
    // a list or str holding both names reaches `.get`, which it lacks; otherwise it is dropped
    ensures trend.JArr? ==>
      r == if JStr("tool_name") in trend.items && JStr("classification") in trend.items
           then Aborted(AttributeError("list", "get")) else Dropped
    ensures trend.JStr? ==>
      r == if Contains(trend.s, "tool_name") && Contains(trend.s, "classification")
           then Aborted(AttributeError("str", "get")) else Dropped
    // a dict with both keys: `.lower()` on a non-str raises, an unknown class is dropped, a bad score raises
    ensures trend.JObj? && "tool_name" in trend.fields && "classification" in trend.fields ==>
      var given := trend.fields["classification"];
      var score := IntOf(Get(trend.fields, "confidence_score", JInt(50)));
      && (!given.JStr? ==> r == Aborted(AttributeError(TypeName(given), "lower")))
      && (given.JStr? && Lower(given.s) != "signal" && Lower(given.s) != "noise" ==> r == Dropped)
      && ((given.JStr? && (Lower(given.s) == "signal" || Lower(given.s) == "noise") && score.Raised?)
          ==> r == Aborted(score.error))
    ensures r.Accepted? ==> WellFormed(r.record, focusArea)
    ensures r.Accepted? ==>
      && "tool_name" in trend.fields && r.record.toolName == trend.fields["tool_name"]
      && "classification" in trend.fields && trend.fields["classification"].JStr?
      && r.record.classification == Lower(trend.fields["classification"].s)
  {
    match HasRequiredFields(trend)
    case Raised(e) => Aborted(e)
    case Returned(present) =>
      if !present then Dropped
      else if !trend.JObj? then Aborted(AttributeError(TypeName(trend), "get"))
      else
        var fields := trend.fields;
        var given := fields["classification"];
        if !given.JStr? then Aborted(AttributeError(TypeName(given), "lower"))
        else
          var classification := Lower(given.s);
          if classification != "signal" && classification != "noise" then Dropped
          else
            match IntOf(Get(fields, "confidence_score", JInt(50)))
            case Raised(e) => Aborted(e)
            case Returned(score) =>
              Accepted(TrendRecord(
                Get(fields, "tool_name", JStr("")),
                classification,
                Clamp(score),
                Get(fields, "technical_insight", JStr("")),
                Get(fields, "signal_evidence", JArr([])),
                Get(fields, "noise_indicators", JArr([])),
                Truthy(Get(fields, "architectural_verdict", JBool(false))),
                focusArea))
  }

  /** A candidate dict is accepted exactly when its classification lower-cases to `signal` or `noise` and its score converts. */
  lemma ValidateAcceptsExactly(fields: map<string, Json>, focusArea: string)
    requires "tool_name" in fields && "classification" in fields && fields["classification"].JStr?
    ensures ValidateTrend(JObj(fields), focusArea).Accepted? <==>
      && Lower(fields["classification"].s) in {"signal", "noise"}
      && IntOf(Get(fields, "confidence_score", JInt(50))).Returned?
  {
  }

  /** The accepted record's score is the clamped `int()` of the given one, 50 when absent; the other fields take their defaults. */
  lemma ValidateNormalises(fields: map<string, Json>, focusArea: string)
    requires ValidateTrend(JObj(fields), focusArea).Accepted?
    ensures var rec := ValidateTrend(JObj(fields), focusArea).record;
      && IntOf(Get(fields, "confidence_score", JInt(50))).Returned?
      && rec.confidenceScore == Clamp(IntOf(Get(fields, "confidence_score", JInt(50))).value)
      && ("confidence_score" !in fields ==> rec.confidenceScore == 50)
      && rec.technicalInsight == Get(fields, "technical_insight", JStr(""))
      && rec.signalEvidence == Get(fields, "signal_evidence", JArr([]))
      && rec.noiseIndicators == Get(fields, "noise_indicators", JArr([]))
      && rec.architecturalVerdict == Truthy(Get(fields, "architectural_verdict", JBool(false)))
      && rec.focusArea == focusArea
  {
  }

  /**
   * The validation loop over the decoded elements: the accepted records in
   * their original order, rejected ones dropped; the first element whose
   * validation raises aborts the whole batch.
   */
  function Screen(items: seq<Json>, focusArea: string): (r: Outcome<seq<TrendRecord>>)
    ensures r.Returned? <==> forall k :: 0 <= k < |items| ==> !ValidateTrend(items[k], focusArea).Aborted?
    ensures r.Returned? ==> |r.value| <= |items|
    ensures r.Returned? ==> forall rec :: rec in r.value ==> WellFormed(rec, focusArea)
  {
    if items == [] then Returned([])
    else
      var rest := Screen(items[1..], focusArea);
      assert forall k :: 1 <= k < |items| ==> items[k] == items[1..][k - 1];
      match ValidateTrend(items[0], focusArea)
      case Aborted(e) => Raised(e)
      case Dropped => rest
      case Accepted(rec) =>
        match rest
        case Raised(e) => Raised(e)
        case Returned(recs) => Returned([rec] + recs)
  }

  /** Screening a concatenation: the first abort wins, otherwise the records concatenate. */
  lemma {:induction false} ScreenAppend(a: seq<Json>, b: seq<Json>, focusArea: string)
    ensures var ra, rb := Screen(a, focusArea), Screen(b, focusArea);
      Screen(a + b, focusArea) ==
        if ra.Raised? then ra
        else if rb.Raised? then Raised(rb.error)
        else Returned(ra.value + rb.value)
  {
    if a == [] {
      assert a + b == b;
      if Screen(b, focusArea).Returned? {
        assert [] + Screen(b, focusArea).value == Screen(b, focusArea).value;
      }
    } else {
      assert (a + b)[0] == a[0];
      assert (a + b)[1..] == a[1..] + b;
      ScreenAppend(a[1..], b, focusArea);
      var ra, rb := Screen(a[1..], focusArea), Screen(b, focusArea);
      match ValidateTrend(a[0], focusArea) {
        case Aborted(e) =>
        case Dropped =>
        case Accepted(rec) =>
          if ra.Returned? && rb.Returned? {
            assert [rec] + (ra.value + rb.value) == ([rec] + ra.value) + rb.value;
          }
      }
    }
  }

  lemma ScreenSingle(x: Json, focusArea: string)
    ensures Screen([x], focusArea) ==
      match ValidateTrend(x, focusArea)
      case Aborted(e) => Raised(e)
      case Dropped => Returned([])
      case Accepted(rec) => Returned([rec])
  {
    assert [x][1..] == [];
    if ValidateTrend(x, focusArea).Accepted? {
      assert [ValidateTrend(x, focusArea).record] + [] == [ValidateTrend(x, focusArea).record];
    }
  }

  /** The first element whose validation raises decides the batch's error. */
  lemma {:induction false} FirstAbortWins(items: seq<Json>, k: nat, focusArea: string)
    requires k < |items| && ValidateTrend(items[k], focusArea).Aborted?
    requires forall j :: 0 <= j < k ==> !ValidateTrend(items[j], focusArea).Aborted?
    ensures Screen(items, focusArea) == Raised(ValidateTrend(items[k], focusArea).error)
  {
    if k > 0 {
      assert forall j :: 0 <= j < k - 1 ==> items[1..][j] == items[j + 1];
      FirstAbortWins(items[1..], k - 1, focusArea);
    }
  }

  /** Candidates that are all dropped leave no records. */
  lemma {:induction false} AllDroppedLeavesNothing(items: seq<Json>, focusArea: string)
    requires forall k :: 0 <= k < |items| ==> ValidateTrend(items[k], focusArea) == Dropped
    ensures Screen(items, focusArea) == Returned([])
  {
    if items != [] {
      assert forall k :: 0 <= k < |items| - 1 ==> items[1..][k] == items[k + 1];
      AllDroppedLeavesNothing(items[1..], focusArea);
    }
  }

  /** The slice `_parse_response` decodes: first `[` through last `]`, when the `]` comes after the `[`. */
  function BracketSlice(response: string): (r: Option<string>)
    ensures r.Some? <==> ('[' in response && ']' in response && Find(response, '[') < RFind(response, ']'))
    ensures r.Some? ==> |r.value| >= 2 && r.value[0] == '[' && r.value[|r.value| - 1] == ']'
    ensures r.Some? ==> '[' !in response[..Find(response, '[')] && ']' !in response[RFind(response, ']') + 1..]
    ensures r.Some? ==> r.value == response[Find(response, '[')..RFind(response, ']') + 1]
  {
    var start := Find(response, '[');
    var end := RFind(response, ']') + 1;
    if start != -1 && end > start then Some(response[start..end]) else None
  }

  /**
   * A payload wrapped in prose that holds no `[` before it and no `]` after
   * it is exactly what gets decoded.
   */
  lemma {:induction false} BracketSliceRoundTrip(before: string, payload: string, after: string)
    requires '[' !in before && ']' !in after
    requires |payload| >= 2 && payload[0] == '[' && payload[|payload| - 1] == ']'
    ensures BracketSlice(before + payload + after) == Some(payload)
  {
    var text := before + payload + after;
    var start, last := |before|, |before| + |payload| - 1;
    assert text[start] == '[' && text[last] == ']';
    assert text[..start] == before;
    assert text[last + 1..] == after;
    FindIsFirst(text, '[', start);
    RFindIsLast(text, ']', last);
    assert text[start..last + 1] == payload;
  }

  lemma FindIsFirst(s: string, c: char, k: nat)
    requires k < |s| && s[k] == c && c !in s[..k]
    ensures Find(s, c) == k
  {
  }

  lemma RFindIsLast(s: string, c: char, k: nat)
    requires k < |s| && s[k] == c && c !in s[k + 1..]
    ensures RFind(s, c) == k
  {
  }

  /** What `_parse_response` returns or raises for a completion. */
  function ParseSpec(response: string, focusArea: string, decode: string -> Decoded): (r: Outcome<AnalysisResult>)
    ensures r.Returned? ==> r.value.Analysis? && r.value.rawResponse == response && r.value.focusArea == focusArea
    ensures r.Returned? ==> forall rec :: rec in r.value.trends ==> WellFormed(rec, focusArea)
    ensures BracketSlice(response) == None ==> r == Returned(Analysis(focusArea, [], response, Some(NoArrayFound)))
    ensures r.Returned? && r.value.parseError.Some? ==> r.value.trends == []
  {
    match BracketSlice(response)
    case None => Returned(Analysis(focusArea, [], response, Some(NoArrayFound)))
    case Some(slice) =>
      match decode(slice)
      case DecodeError(message) => Returned(Analysis(focusArea, [], response, Some(DecodeErrorPrefix + message)))
      case DecodeRaised(e) => Raised(e)
      case Elements(items) =>
        match Screen(items, focusArea)
        case Raised(e) => Raised(e)
        case Returned(recs) => Returned(Analysis(focusArea, recs, response, None))
  }

  /** A decode failure yields no trends and a `parse_error` of the decode prefix and the decoder's message. */
  lemma ParseDecodeFailure(response: string, focusArea: string, decode: string -> Decoded)
    requires BracketSlice(response).Some? && decode(BracketSlice(response).value).DecodeError?
    ensures var r := ParseSpec(response, focusArea, decode);
      && r.Returned? && r.value.trends == [] && r.value.rawResponse == response
      && r.value.parseError == Some(DecodeErrorPrefix + decode(BracketSlice(response).value).message)
      && StartsWith(r.value.parseError.value, DecodeErrorPrefix)
  {
    assert (DecodeErrorPrefix + decode(BracketSlice(response).value).message)[..|DecodeErrorPrefix|] == DecodeErrorPrefix;
  }

  /** An exception other than a JSONDecodeError escapes the parse. */
  lemma ParseDecodeRaises(response: string, focusArea: string, decode: string -> Decoded)
    requires BracketSlice(response).Some? && decode(BracketSlice(response).value).DecodeRaised?
    ensures ParseSpec(response, focusArea, decode) == Raised(decode(BracketSlice(response).value).error)
  {
  }

  /** A decoded array yields the screened records and no `parse_error`, unless a candidate raised. */
  lemma ParseDecodeSuccess(response: string, focusArea: string, decode: string -> Decoded)
    requires BracketSlice(response).Some? && decode(BracketSlice(response).value).Elements?
    ensures var screened := Screen(decode(BracketSlice(response).value).items, focusArea);
      ParseSpec(response, focusArea, decode) ==
        if screened.Raised? then Raised(screened.error)
        else Returned(Analysis(focusArea, screened.value, response, None))
  {
  }

  /** Screening one more element of a prefix that screened without error. */
  lemma ScreenStep(items: seq<Json>, i: nat, focusArea: string)
    requires i < |items| && Screen(items[..i], focusArea).Returned?
    ensures var before := Screen(items[..i], focusArea).value;
      var v := ValidateTrend(items[i], focusArea);
      Screen(items[..i + 1], focusArea) ==
        if v.Aborted? then Raised(v.error)
        else if v.Dropped? then Returned(before)
        else Returned(before + [v.record])
  {
    ScreenAppend(items[..i], [items[i]], focusArea);
    assert items[..i + 1] == items[..i] + [items[i]];
    ScreenSingle(items[i], focusArea);
    if ValidateTrend(items[i], focusArea).Dropped? {
      assert Screen(items[..i], focusArea).value + [] == Screen(items[..i], focusArea).value;
    }
  }

  /** An element that raises after a prefix that screened without error decides the whole batch. */
  lemma ScreenStops(items: seq<Json>, i: nat, focusArea: string)
    requires i < |items| && Screen(items[..i], focusArea).Returned?
    requires ValidateTrend(items[i], focusArea).Aborted?
    ensures Screen(items, focusArea) == Raised(ValidateTrend(items[i], focusArea).error)
  {
    ScreenStep(items, i, focusArea);
    ScreenPrefixRaised(items, i + 1, focusArea);
  }

  /** A prefix that raises decides the whole batch. */
  lemma ScreenPrefixRaised(items: seq<Json>, j: nat, focusArea: string)
    requires j <= |items| && Screen(items[..j], focusArea).Raised?
    ensures Screen(items, focusArea) == Screen(items[..j], focusArea)
  {
    ScreenAppend(items[..j], items[j..], focusArea);
    assert items[..j] + items[j..] == items;
  }

  /** The loop of `_parse_response` that validates each decoded element and appends the accepted ones. */
  method ValidateAll(trends: seq<Json>, focusArea: string) returns (out: Outcome<seq<TrendRecord>>)
    ensures out == Screen(trends, focusArea)
  {
    var validated: seq<TrendRecord> := [];
    var i := 0;
    while i < |trends|
      invariant 0 <= i <= |trends|
      invariant Screen(trends[..i], focusArea) == Returned(validated)
    {
      ScreenStep(trends, i, focusArea);
      match ValidateTrend(trends[i], focusArea) {
        case Aborted(e) =>
          ScreenStops(trends, i, focusArea);
          return Raised(e);
        case Dropped =>
        case Accepted(rec) =>
          validated := validated + [rec];
      }
      i := i + 1;
    }
    assert trends[..i] == trends;
    out := Returned(validated);
  }


  /** `_parse_response`: the bracket scan, the decode, and the loop that appends each accepted record. */
  method ParseResponse(response: string, focusArea: string, decode: string -> Decoded)
    returns (out: Outcome<AnalysisResult>)
    ensures out == ParseSpec(response, focusArea, decode)
  {
    var start := Find(response, '[');
    var end := RFind(response, ']') + 1;
    if start != -1 && end > start {
      var slice := response[start..end];
      match decode(slice) {
        case DecodeError(message) =>
          out := Returned(Analysis(focusArea, [], response, Some(DecodeErrorPrefix + message)));
        case DecodeRaised(e) =>
          out := Raised(e);
        case Elements(trends) =>
          var screened := ValidateAll(trends, focusArea);
          match screened {
            case Raised(e) => out := Raised(e);
            case Returned(validated) => out := Returned(Analysis(focusArea, validated, response, None));
          }
      }
    } else {
      out := Returned(Analysis(focusArea, [], response, Some(NoArrayFound)));
    }
  }

  /** `custom_prompt or template`: a non-empty custom prompt wins. */
  function ChoosePrompt(customPrompt: Option<string>, template: Option<string>): (r: Option<string>)
    ensures customPrompt.Some? && customPrompt.value != "" ==> r == customPrompt
    ensures customPrompt.None? || customPrompt.value == "" ==> r == template
  {
    if customPrompt.Some? && customPrompt.value != "" then customPrompt else template
  }

  /**
   * `analyze_trends` once the template lookup is known: the credential
   * guard, the focus-area guard, the prompt guard, then the call and the
   * parse, whose failures become the `error` envelope.
   */
  function Analyze(configured: bool, focusArea: string, customPrompt: Option<string>, template: Option<string>,
                   call: string -> CallOutcome, decode: string -> Decoded): (r: AnalysisResult)
    ensures !configured ==> r == Failure(NotConfigured)
    ensures r.Analysis? ==> configured && focusArea in FocusAreas && r.focusArea == focusArea
    ensures r.Analysis? ==> forall rec :: rec in r.trends ==> WellFormed(rec, focusArea)
  {
    if !configured then Failure(NotConfigured)
    else if focusArea !in FocusAreas then Failure("Invalid focus area: " + focusArea)
    else
      var prompt := ChoosePrompt(customPrompt, template);
      if prompt.None? || prompt.value == "" then Failure("Prompt template not found for " + focusArea)
      else
        match call(prompt.value)
        case CallFailed(message) => Failure(message)
        case Completed(text) =>
          match ParseSpec(text, focusArea, decode)
          case Raised(e) => Failure(Message(e))
          case Returned(result) => result
  }

  /** The guards run in order: credential, then focus area, then prompt. */
  lemma AnalyzeGuardOrder(configured: bool, focusArea: string, customPrompt: Option<string>, template: Option<string>,
                          call: string -> CallOutcome, decode: string -> Decoded)
    ensures var r := Analyze(configured, focusArea, customPrompt, template, call, decode);
      && (!configured ==> r == Failure(NotConfigured))
      && (configured && focusArea !in FocusAreas ==> r == Failure("Invalid focus area: " + focusArea))
      && ((configured && focusArea in FocusAreas && ChoosePrompt(customPrompt, template) in {None, Some("")})
            ==> r == Failure("Prompt template not found for " + focusArea))
  {
  }

  /** A non-empty custom prompt is what gets sent, whatever the template. */
  lemma CustomPromptOverrides(configured: bool, focusArea: string, prompt: string, t1: Option<string>, t2: Option<string>,
                              call: string -> CallOutcome, decode: string -> Decoded)
    requires prompt != ""
    ensures Analyze(configured, focusArea, Some(prompt), t1, call, decode)
         == Analyze(configured, focusArea, Some(prompt), t2, call, decode)
  {
  }

  /**
   * Once the guards pass, the chosen prompt (custom or template) is sent; a
   * failed call gives the `error` envelope with its message, and a completed
   * one gives what the parse returns, or the envelope with the text of what
   * it raised.
   */
  lemma AnalyzeAfterGuards(focusArea: string, customPrompt: Option<string>, template: Option<string>, prompt: string,
                           call: string -> CallOutcome, decode: string -> Decoded)
    requires focusArea in FocusAreas && ChoosePrompt(customPrompt, template) == Some(prompt) && prompt != ""
    ensures var r := Analyze(true, focusArea, customPrompt, template, call, decode);
      && (call(prompt).CallFailed? ==> r == Failure(call(prompt).message))
      && (call(prompt).Completed? ==>
            var parsed := ParseSpec(call(prompt).text, focusArea, decode);
            r == if parsed.Raised? then Failure(Message(parsed.error)) else parsed.value)
  {
  }

  /** Every failure after the guards (the provider's, a candidate's) ends as the `error` envelope with no trends. */
  lemma AnalyzeNeverRaises(focusArea: string, customPrompt: Option<string>, template: Option<string>, prompt: string,
                           call: string -> CallOutcome, decode: string -> Decoded)
    requires focusArea in FocusAreas && ChoosePrompt(customPrompt, template) == Some(prompt) && prompt != ""
    ensures var r := Analyze(true, focusArea, customPrompt, template, call, decode);
      && (call(prompt).CallFailed? ==> r == Failure(call(prompt).message) && r.Trends() == [])
      && ((call(prompt).Completed? && ParseSpec(call(prompt).text, focusArea, decode).Raised?)
            ==> r == Failure(Message(ParseSpec(call(prompt).text, focusArea, decode).error)) && r.Trends() == [])
  {
    AnalyzeAfterGuards(focusArea, customPrompt, template, prompt, call, decode);
  }

  /** The candidate a mocked completion holds: a complete signal for `TestTool`. */
  const TestToolCandidate: Json := JObj(map[
    "tool_name" := JStr("TestTool"), "classification" := JStr("signal"),
    "confidence_score" := JInt(90), "technical_insight" := JStr("Great tool")])

  lemma ValidateTestTool(focusArea: string)
    ensures ValidateTrend(TestToolCandidate, focusArea) == Accepted(TestToolRecord(focusArea))
  {
    var fields := TestToolCandidate.fields;
    assert Member(TestToolCandidate, "tool_name") == Returned(true);
    assert Member(TestToolCandidate, "classification") == Returned(true);
    assert Lower("signal") == "signal";
    assert IntOf(Get(fields, "confidence_score", JInt(50))) == Returned(90);
  }

  /** A complete candidate with every optional field given. */
  const FullCandidate: Json := JObj(map[
    "tool_name" := JStr("TestTool"), "classification" := JStr("signal"), "confidence_score" := JInt(85),
    "technical_insight" := JStr("Great benchmarks"), "signal_evidence" := JArr([JStr("evidence1")]),
    "noise_indicators" := JArr([]), "architectural_verdict" := JBool(true)])

  /** Every given field is kept, the in-range score unchanged, and the caller's focus area attached. */
  lemma ValidateFullCandidate()
    ensures ValidateTrend(FullCandidate, "voice_ai_ux") == Accepted(TrendRecord(
      JStr("TestTool"), "signal", 85, JStr("Great benchmarks"), JArr([JStr("evidence1")]), JArr([]), true, "voice_ai_ux"))
  {
    var fields := FullCandidate.fields;
    assert "tool_name" in fields && fields["tool_name"] == JStr("TestTool");
    assert fields["classification"] == JStr("signal") && Lower("signal") == "signal";
    assert Get(fields, "confidence_score", JInt(50)) == JInt(85);
    assert Get(fields, "technical_insight", JStr("")) == JStr("Great benchmarks");
    assert Get(fields, "signal_evidence", JArr([])) == JArr([JStr("evidence1")]);
    assert Get(fields, "noise_indicators", JArr([])) == JArr([]);
    assert Get(fields, "architectural_verdict", JBool(false)) == JBool(true);
    ValidateAcceptsWith(fields, "voice_ai_ux", 85);
  }

  /** A dict with both keys, a signal/noise classification and a converting score becomes this record. */
  lemma ValidateAcceptsWith(fields: map<string, Json>, focusArea: string, score: int)
    requires "tool_name" in fields && "classification" in fields && fields["classification"].JStr?
    requires Lower(fields["classification"].s) == "signal" || Lower(fields["classification"].s) == "noise"
    requires IntOf(Get(fields, "confidence_score", JInt(50))) == Returned(score)
    ensures ValidateTrend(JObj(fields), focusArea) == Accepted(TrendRecord(
      fields["tool_name"], Lower(fields["classification"].s), Clamp(score),
      Get(fields, "technical_insight", JStr("")), Get(fields, "signal_evidence", JArr([])),
      Get(fields, "noise_indicators", JArr([])), Truthy(Get(fields, "architectural_verdict", JBool(false))),
      focusArea))
  {
    assert HasRequiredFields(JObj(fields)) == Returned(true);
  }

  /** A dict with both keys and a signal/noise classification whose score raises aborts with that error. */
  lemma ValidateScoreRaises(fields: map<string, Json>, focusArea: string, e: PyError)
    requires "tool_name" in fields && "classification" in fields && fields["classification"].JStr?
    requires Lower(fields["classification"].s) == "signal" || Lower(fields["classification"].s) == "noise"
    requires IntOf(Get(fields, "confidence_score", JInt(50))) == Raised(e)
    ensures ValidateTrend(JObj(fields), focusArea) == Aborted(e)
  {
  }

  /** The record the complete `TestTool` candidate becomes. */
  function TestToolRecord(focusArea: string): TrendRecord
  {
    TrendRecord(JStr("TestTool"), "signal", 90, JStr("Great tool"), JArr([]), JArr([]), false, focusArea)
  }

  /** A completion that is a bare array is decoded whole. */
  lemma BareArraySlice(text: string)
    requires |text| >= 2 && text[0] == '[' && text[|text| - 1] == ']'
    ensures BracketSlice(text) == Some(text)
  {
    BracketSliceRoundTrip("", text, "");
    assert "" + text + "" == text;
  }

  /** A completion whose slice decodes to one accepted candidate parses to that candidate's record. */
  lemma ParseOneAccepted(text: string, focusArea: string, decode: string -> Decoded, x: Json, rec: TrendRecord)
    requires BracketSlice(text) == Some(text)
    requires decode(text) == Elements([x])
    requires ValidateTrend(x, focusArea) == Accepted(rec)
    ensures ParseSpec(text, focusArea, decode) == Returned(Analysis(focusArea, [rec], text, None))
  {
    ScreenSingle(x, focusArea);
    ParseDecodeSuccess(text, focusArea, decode);
  }


  /**
   * A completion that is a bare array holding one complete signal candidate
   * gives one record with that tool, classification, score and focus area,
   * and no error.
   */
  lemma AnalyzeOneSignal(customPrompt: Option<string>, template: Option<string>, prompt: string, text: string,
                         call: string -> CallOutcome, decode: string -> Decoded)
    requires ChoosePrompt(customPrompt, template) == Some(prompt) && prompt != ""
    requires |text| >= 2 && text[0] == '[' && text[|text| - 1] == ']'
    requires call(prompt) == Completed(text)
    requires decode(text) == Elements([TestToolCandidate])
    ensures var r := Analyze(true, "voice_ai_ux", customPrompt, template, call, decode);
      && r.Analysis? && |r.trends| == 1 && r.parseError == None
      && r.trends[0].toolName == JStr("TestTool") && r.trends[0].classification == "signal"
      && r.trends[0].confidenceScore == 90 && r.trends[0].focusArea == "voice_ai_ux"
  {
    ValidateTestTool("voice_ai_ux");
    BareArraySlice(text);
    ParseOneAccepted(text, "voice_ai_ux", decode, TestToolCandidate, TestToolRecord("voice_ai_ux"));
    assert "voice_ai_ux" in FocusAreas;
    AnalyzeAfterGuards("voice_ai_ux", customPrompt, template, prompt, call, decode);
  }


  /** A candidate whose score is not an integer literal. */
  const BadScoreCandidate: Json := JObj(map[
    "tool_name" := JStr("TestTool"), "classification" := JStr("signal"), "confidence_score" := JStr("high")])

  /** `int("high")` raises, so validating the candidate raises instead of dropping it. */
  lemma ValidateBadScore(focusArea: string)
    ensures ValidateTrend(BadScoreCandidate, focusArea) == Aborted(InvalidIntLiteral("high"))
  {
    var fields := BadScoreCandidate.fields;
    assert "tool_name" in fields && fields["classification"] == JStr("signal") && Lower("signal") == "signal";
    assert Get(fields, "confidence_score", JInt(50)) == JStr("high");
    IntOfHigh();
    ValidateScoreRaises(fields, focusArea, InvalidIntLiteral("high"));
  }

  /**
   * A completion whose array starts with that candidate aborts the whole
   * batch: the result is the `error` envelope with `int()`'s message.
   */
  lemma AnalyzeBadScoreFails(customPrompt: Option<string>, template: Option<string>, prompt: string, text: string,
                             call: string -> CallOutcome, decode: string -> Decoded, rest: seq<Json>)
    requires ChoosePrompt(customPrompt, template) == Some(prompt) && prompt != ""
    requires |text| >= 2 && text[0] == '[' && text[|text| - 1] == ']'
    requires call(prompt) == Completed(text)
    requires decode(text) == Elements([BadScoreCandidate] + rest)
    ensures Analyze(true, "voice_ai_ux", customPrompt, template, call, decode)
         == Failure("invalid literal for int() with base 10: 'high'")
  {
    ValidateBadScore("voice_ai_ux");
    BareArraySlice(text);
    ParseFirstAborts(text, "voice_ai_ux", decode, BadScoreCandidate, rest, InvalidIntLiteral("high"));
    assert "voice_ai_ux" in FocusAreas;
    AnalyzeParseRaises("voice_ai_ux", customPrompt, template, prompt, call, decode, text, InvalidIntLiteral("high"));
    HighLiteralMessage();
  }

  /** A decoded array whose first candidate raises makes the parse raise that error. */
  lemma ParseFirstAborts(text: string, focusArea: string, decode: string -> Decoded, x: Json, rest: seq<Json>, e: PyError)
    requires BracketSlice(text) == Some(text)
    requires decode(text) == Elements([x] + rest)
    requires ValidateTrend(x, focusArea) == Aborted(e)
    ensures ParseSpec(text, focusArea, decode) == Raised(e)
  {
    ParseDecodeSuccess(text, focusArea, decode);
    assert ([x] + rest)[0] == x;
  }

  /** A raising parse after the guards becomes the `error` envelope with the exception's text. */
  lemma AnalyzeParseRaises(focusArea: string, customPrompt: Option<string>, template: Option<string>, prompt: string,
                           call: string -> CallOutcome, decode: string -> Decoded, text: string, e: PyError)
    requires focusArea in FocusAreas && ChoosePrompt(customPrompt, template) == Some(prompt) && prompt != ""
    requires call(prompt) == Completed(text) && ParseSpec(text, focusArea, decode) == Raised(e)
    ensures Analyze(true, focusArea, customPrompt, template, call, decode) == Failure(Message(e))
  {
    AnalyzeAfterGuards(focusArea, customPrompt, template, prompt, call, decode);
  }

  /** `get_available_focus_areas`: the three focus areas, each with a template file. */
  function AvailableFocusAreas(): (areas: seq<string>)
    ensures areas == ["voice_ai_ux", "agent_orchestration", "durable_runtime"]
    ensures forall a :: a in areas <==> a in PromptFiles
  {
    FocusAreas
  }

  /** The template `_load_prompt_template` reads from the prompts directory, if the file is there. */
  function TemplateFile(prompts: map<string, string>, focusArea: string): Option<string>
  {
    if focusArea in PromptFiles && PromptFiles[focusArea] in prompts then Some(prompts[PromptFiles[focusArea]])
    else None
  }

  /** What `_load_prompt_template` returns: the cached text, else the file's. */
  function CachedTemplate(cache: map<string, string>, prompts: map<string, string>, focusArea: string): Option<string>
  {
    if focusArea in cache then Some(cache[focusArea]) else TemplateFile(prompts, focusArea)
  }

  /** A cached focus area is answered from the cache, whatever the directory now holds. */
  lemma CachedIgnoresDirectory(cache: map<string, string>, p1: map<string, string>, p2: map<string, string>, focusArea: string)
    requires focusArea in cache
    ensures CachedTemplate(cache, p1, focusArea) == CachedTemplate(cache, p2, focusArea) == Some(cache[focusArea])
  {
  }

  /** The prompt-analysis service: the configured credential and the template cache. */
  class GrokService {
    const apiKey: Option<string>
    const model: string
    var promptCache: map<string, string>

    /** Only focus areas with a template file are ever cached. */
    ghost predicate Valid()
      reads this
    {
      forall area :: area in promptCache ==> area in PromptFiles
    }

    constructor (apiKey: Option<string>)
      ensures Valid()
      ensures this.apiKey == apiKey && model == "xai/grok-beta" && promptCache == map[]
    {
      this.apiKey := apiKey;
      model := "xai/grok-beta";
      promptCache := map[];
    }

    /** `is_configured`, i.e. `bool(self.api_key)`: a key is set and is not the empty string. */
    predicate IsConfigured()
      ensures IsConfigured() <==> apiKey.Some? && Truthy(JStr(apiKey.value))
    {
      apiKey.Some? && apiKey.value != ""
    }

    /** `_load_prompt_template`: read-through cache over the template files. */
    method LoadPromptTemplate(focusArea: string, prompts: map<string, string>) returns (content: Option<string>)
      requires Valid()
      modifies this
      ensures Valid()
      ensures content == CachedTemplate(old(promptCache), prompts, focusArea)
      // only a focus area with a template file ever yields a template, from the cache or not
      ensures content.Some? ==> focusArea in PromptFiles
      ensures promptCache ==
        if focusArea !in old(promptCache) && content.Some? then old(promptCache)[focusArea := content.value]
        else old(promptCache)
    {
      if focusArea in promptCache {
        return Some(promptCache[focusArea]);
      }
      if focusArea !in PromptFiles {
        return None;
      }
      var path := PromptFiles[focusArea];
      if path !in prompts {
        return None;
      }
      content := Some(prompts[path]);
      promptCache := promptCache[focusArea := prompts[path]];
    }

    /** `analyze_trends`: the template is loaded (and cached) only once every earlier guard passed and no custom prompt was given. */
    method AnalyzeTrends(focusArea: string, customPrompt: Option<string>, prompts: map<string, string>,
                         call: string -> CallOutcome, decode: string -> Decoded)
      returns (result: AnalysisResult)
      requires Valid()
      modifies this
      ensures Valid()
      ensures result == Analyze(IsConfigured(), focusArea, customPrompt,
                                CachedTemplate(old(promptCache), prompts, focusArea), call, decode)
      ensures var loads := IsConfigured() && focusArea in FocusAreas && ChoosePrompt(customPrompt, None) == None;
              var loaded := CachedTemplate(old(promptCache), prompts, focusArea);
        promptCache ==
          if loads && focusArea !in old(promptCache) && loaded.Some? then old(promptCache)[focusArea := loaded.value]
          else old(promptCache)
    {
      if !IsConfigured() {
        return Failure(NotConfigured);
      }
      if focusArea !in FocusAreas {
        return Failure("Invalid focus area: " + focusArea);
      }
      var prompt := customPrompt;
      if !(customPrompt.Some? && customPrompt.value != "") {
        prompt := LoadPromptTemplate(focusArea, prompts);
      }
      if prompt.None? || prompt.value == "" {
        return Failure("Prompt template not found for " + focusArea);
      }
      match call(prompt.value) {
        case CallFailed(message) =>
          result := Failure(message);
        case Completed(text) =>
          var parsed := ParseResponse(text, focusArea, decode);
          match parsed {
            case Raised(e) => result := Failure(Message(e));
            case Returned(r) => result := r;
          }
      }
    }
  }
}
