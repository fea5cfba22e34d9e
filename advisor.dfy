/** The advisor endpoint's state machine: a thirteen-step flow, a state holding the
    current step index and the answers so far, and one turn of the conversation in
    mock mode, in JSON mode, for a plain-text reply, and when the AI call fails.
    The AI call itself is an input (`AiOutcome`). */
module Advisor {
  import opened Common

  const StepFlow: seq<string> := [
    "ASK_IDEA", "ASK_BUDGET", "ASK_LOCATION_PREFERENCE", "ASK_CUSTOM_LOCATION", "CONFIRM_LOCATION",
    "RAW_MATERIALS", "SUPPLIER_GUIDANCE", "PRODUCT_PLANNING", "SELLING_GUIDE", "PRICING",
    "MARKETING", "GROWTH", "DASHBOARD_MODE"
  ]

  /** `len(STEP_FLOW) - 1`, the index the flow never moves past. */
  const LastStep: int := |StepFlow| - 1

  lemma StepFlowShape()
    ensures |StepFlow| == 13 && LastStep == 12
    ensures StepFlow[6] == "SUPPLIER_GUIDANCE" && StepFlow[12] == "DASHBOARD_MODE"
  {
  }

  /** The step names, as a set: what `step in STEP_FLOW` tests. */
  const StepNames: set<string> := set i | 0 <= i < |StepFlow| :: StepFlow[i]

  lemma StepNamesFromFlow(i: int)
    requires 0 <= i < |StepFlow|
    ensures StepFlow[i] in StepNames
  {
  }

  datatype AgentState = AgentState(stepIndex: int, answers: map<string, string>)

  /** The state a request without one starts from. */
  const InitialState: AgentState := AgentState(0, map[])

  /** Python's `STEP_FLOW[i]`: negative indices count from the end, and any index outside
      `-13 .. 12` raises `IndexError`. */
  function StepAt(i: int): (s: Option<string>)
    ensures s.Some? <==> -|StepFlow| <= i < |StepFlow|
    ensures 0 <= i < |StepFlow| ==> s == Some(StepFlow[i])
    ensures -|StepFlow| <= i < 0 ==> s == Some(StepFlow[i + |StepFlow|])
  {
    if 0 <= i < |StepFlow| then Some(StepFlow[i])
    else if -|StepFlow| <= i < 0 then Some(StepFlow[i + |StepFlow|])
    else None
  }

  /** One supplier row of the comparison data (`type` is a keyword here, so it is `kind`). */
  datatype ComparisonRow = ComparisonRow(name: string, location: string, kind: string, activity: string,
                                         status: string, price: string, contact: string)

  /** The decoded JSON object of a reply: `reply`, `extracted_info`, `comparison_data`. */
  datatype AiJson = AiJson(reply: string, extracted: map<string, string>, comparison: seq<ComparisonRow>)

  /** What the AI call produced: an exception (its text), or a completion together with what
      decoding its `{…}` span gives (`None` when that span is not valid JSON). */
  datatype AiOutcome = Raised(error: string) | Completed(content: string, decoded: Option<AiJson>)

  datatype Response = Response(reply: string, state: AgentState, comparisonData: seq<ComparisonRow>)

  /** A response, or the uncaught `IndexError` of a step index outside the flow. */
  datatype Outcome = Ok(response: Response) | IndexError

  // ---------------------------------------------------------------------------
  // Fixed texts

  const FallbackReply: string :=
    "I'm having a little trouble connecting to my brain right now, but don't worry! Could you try again in a moment?"

  const RateLimitReply: string :=
    "I've been talking a bit too much today and hit my daily limit! I need a short break. Please try again soon or switch to Mock Mode in settings."

  /** The reply after an exception: the rate-limit text when the error mentions it. */
  function ErrorReply(error: string): (r: string)
    ensures Contains(ToLower(error), "rate_limit") ==> r == RateLimitReply
    ensures !Contains(ToLower(error), "rate_limit") ==> r == FallbackReply
  {
    if Contains(ToLower(error), "rate_limit") then RateLimitReply else FallbackReply
  }

  function MockReply(step: string): string
  {
    if step == "ASK_IDEA" then
      "That sounds like a great starting point! Before we dive in, what's your approximate budget for this business?"
    else if step == "ASK_BUDGET" then
      "I see. Budgeting is crucial! Now, do you have a specific location or area in mind where you want to set things up?"
    else if step == "ASK_LOCATION_PREFERENCE" then
      "Excellent! Location can make or break a business. Please tell me the exact city or area you're thinking of."
    else if step == "ASK_CUSTOM_LOCATION" then
      "Got it. Anand is a vibrant area! Should we proceed with this location or would you like to consider somewhere else?"
    else if step == "SUPPLIER_GUIDANCE" then
      "Great! I've found some officially registered suppliers from government data that might help you. These are verified MSME enterprises that could be potential suppliers or partners for your business."
    else "I've noted that. Let's move to the next phase: " + step + ". Ready?"
  }

  /** The steps that come with supplier data. */
  predicate IsAdvisoryStep(step: string)
  {
    step == "RAW_MATERIALS" || step == "SUPPLIER_GUIDANCE" || step == "SELLING_GUIDE"
  }

  const MockRows: seq<ComparisonRow> := [
    ComparisonRow("Devani Reverence India", "GHAZIABAD, UTTAR PRADESH", "Micro", "Manufacturing", "Active",
                  "Approx ₹55/kg", "Dist: GHAZIABAD"),
    ComparisonRow("AHMAD MOBILE SHOP", "SANT KABEER NAGAR, UTTAR PRADESH", "Micro", "Services", "Registered",
                  "Approx ₹60/kg", "Dist: SANT KABEER NAGAR"),
    ComparisonRow("sachin Enterprise", "BULDHANA, MAHARASHTRA", "Micro", "Services", "Registered",
                  "Approx ₹58/kg", "Dist: BULDHANA"),
    ComparisonRow("RINA Fancy Dress", "MALDA, WEST BENGAL", "Micro", "Services", "Registered",
                  "Approx ₹450 (Rental)", "Dist: MALDA"),
    ComparisonRow("Ranak Basanalaya Retail Shop", "HOOGHLY, WEST BENGAL", "Micro", "Services", "Active",
                  "Approx ₹20-50/unit", "Dist: HOOGHLY")
  ]

  function MockComparison(step: string): (r: seq<ComparisonRow>)
    ensures IsAdvisoryStep(step) ==> |r| == 5
    ensures !IsAdvisoryStep(step) ==> r == []
  {
    if IsAdvisoryStep(step) then MockRows else []
  }

  // ---------------------------------------------------------------------------
  // State updates

  /** `min(i + 1, len(STEP_FLOW) - 1)`. */
  function ClampedNext(i: int): (j: int)
    ensures j <= LastStep
    ensures i < LastStep ==> j == i + 1
    ensures i >= LastStep ==> j == LastStep
  {
    if i + 1 < LastStep then i + 1 else LastStep
  }

  /** Record the user's message under a step, when there is one. */
  function Record(answers: map<string, string>, step: string, message: string): (a: map<string, string>)
    ensures message == "" ==> a == answers
    ensures message != "" ==> a == answers[step := message]
  {
    if message != "" then answers[step := message] else answers
  }

  /** The answers after the merge loop: every extracted key that names a step overrides. */
  function Merged(answers: map<string, string>, extracted: map<string, string>): (a: map<string, string>)
    ensures forall k :: k in a <==> k in answers || (k in extracted && k in StepNames)
    ensures forall k :: k in a && k in extracted && k in StepNames ==> a[k] == extracted[k]
    ensures forall k :: k in a && !(k in extracted && k in StepNames) ==> a[k] == answers[k]
  {
    MergedOver(answers, extracted, StepNames)
  }

  /** The same merge over any set of accepted keys. */
  function MergedOver(answers: map<string, string>, extracted: map<string, string>, names: set<string>): (a: map<string, string>)
    ensures forall k :: k in a <==> k in answers || (k in extracted && k in names)
    ensures forall k :: k in a && k in extracted && k in names ==> a[k] == extracted[k]
    ensures forall k :: k in a && !(k in extracted && k in names) ==> a[k] == answers[k]
  {
    map k | k in answers.Keys + (set x | x in extracted && x in names) ::
      if k in extracted && k in names then extracted[k] else answers[k]
  }

  /** Where the JSON-mode loop stops: the first index from `i` on whose step is unanswered,
      or the last index. */
  function SkipAnswered(i: int, answers: map<string, string>): (j: int)
    requires -|StepFlow| <= i
    decreases LastStep - i
  {
    if i >= LastStep then i
    else if StepAt(i).value in answers then SkipAnswered(i + 1, answers)
    else i
  }

  /** The loop never moves back nor past the last step, skips only answered steps, and
      stops at the last step or at an unanswered one. */
  lemma {:induction false} SkipAnsweredSpec(i: int, answers: map<string, string>)
    requires -|StepFlow| <= i <= LastStep
    ensures i <= SkipAnswered(i, answers) <= LastStep
    ensures forall j :: i <= j < SkipAnswered(i, answers) ==> StepAt(j).value in answers
    ensures var j := SkipAnswered(i, answers); j == LastStep || StepAt(j).value !in answers
    decreases LastStep - i
  {
    if i < LastStep && StepAt(i).value in answers {
      SkipAnsweredSpec(i + 1, answers);
    }
  }

  function MockState(st: AgentState, current: string, message: string): AgentState
  {
    if message != "" then AgentState(ClampedNext(st.stepIndex), st.answers[current := message]) else st
  }

  function PlainState(st: AgentState, current: string, message: string): AgentState
  {
    AgentState(ClampedNext(st.stepIndex), Record(st.answers, current, message))
  }

  /** The answers in JSON mode: the message when the model did not extract the current step,
      then the extracted step names. */
  function JsonAnswers(st: AgentState, current: string, message: string, extracted: map<string, string>): map<string, string>
  {
    Merged(if current !in extracted then Record(st.answers, current, message) else st.answers, extracted)
  }

  function JsonState(st: AgentState, current: string, message: string, extracted: map<string, string>): AgentState
    requires -|StepFlow| <= st.stepIndex
  {
    var a := JsonAnswers(st, current, message, extracted);
    AgentState(SkipAnswered(st.stepIndex, a), a)
  }

  /** A completion takes the JSON path when it has a `{` with a `}` somewhere after it,
      the span `\{.*\}` matches under DOTALL. */
  predicate HasBraceSpan(s: string)
  {
    exists i, j :: 0 <= i < j < |s| && s[i] == '{' && s[j] == '}'
  }

  // ---------------------------------------------------------------------------
  // One turn

  /** The endpoint on one request: `mock` is the mock-mode switch, `state` the request's state
      (`None` when it is missing or empty), `ai` what the AI call gave. */
  function Turn(mock: bool, message: string, state: Option<AgentState>, ai: AiOutcome): Outcome
  {
    var st := if state.None? then InitialState else state.value;
    match StepAt(st.stepIndex)
    case None => IndexError
    case Some(current) => Ok(TurnAt(mock, message, st, current, ai))
  }

  /** A turn once the current step is known. */
  function TurnAt(mock: bool, message: string, st: AgentState, current: string, ai: AiOutcome): Response
    requires -|StepFlow| <= st.stepIndex
  {
    if mock then Response(MockReply(current), MockState(st, current, message), MockComparison(current))
    else match ai
      case Raised(e) => Response(ErrorReply(e), st, [])
      case Completed(content, decoded) =>
        var text := PyStrip(content);
        if !HasBraceSpan(text) then Response(text, PlainState(st, current, message), [])
        else match decoded
          case None => Response(FallbackReply, st, [])
          case Some(j) => Response(j.reply, JsonState(st, current, message, j.extracted), j.comparison)
  }

  /** The merge loop over the extracted items: an item is taken when its key is one of
      `names` (the step names, at the call). */
  method MergeExtracted(answers: map<string, string>, extracted: map<string, string>, names: set<string>)
      returns (acc: map<string, string>)
    ensures acc == MergedOver(answers, extracted, names)
  {
    acc := answers;
    var rest := extracted.Keys;
    assert extracted - rest == map[];
    while rest != {}
      invariant rest <= extracted.Keys
      invariant acc == MergedOver(answers, extracted - rest, names)
      decreases |rest|
    {
      var step :| step in rest;
      MergeOneMore(answers, extracted, names, rest, step);
      if step in names {
        acc := acc[step := extracted[step]];
      }
      rest := rest - {step};
    }
    assert extracted - rest == extracted;
  }

  /** One more item through the merge: it overrides exactly when its key is accepted. */
  lemma MergeOneMore(answers: map<string, string>, extracted: map<string, string>, names: set<string>,
                     rest: set<string>, step: string)
    requires step in rest && rest <= extracted.Keys
    ensures var before := MergedOver(answers, extracted - rest, names);
            MergedOver(answers, extracted - (rest - {step}), names) ==
              if step in names then before[step := extracted[step]] else before
  {
  }

  /** The `while` loop that advances past already answered steps. */
  method AdvancePastAnswered(start: int, answers: map<string, string>) returns (idx: int)
    requires -|StepFlow| <= start <= LastStep
    ensures idx == SkipAnswered(start, answers)
  {
    idx := start;
    while idx < LastStep
      invariant start <= idx <= LastStep
      invariant SkipAnswered(idx, answers) == SkipAnswered(start, answers)
      decreases LastStep - idx
    {
      var next := StepAt(idx).value;
      if next in answers {
        idx := idx + 1;
      } else {
        break;
      }
    }
  }

  /** The endpoint as written: the state dictionary is updated in place, step by step. */
  method SmartbizAgent(mock: bool, message: string, state: Option<AgentState>, ai: AiOutcome) returns (r: Outcome)
    ensures r == Turn(mock, message, state, ai)
  {
    var st := if state.None? then InitialState else state.value;
    var step := StepAt(st.stepIndex);
    if step.None? {
      return IndexError;
    }
    var response := Respond(mock, message, st, step.value, ai);
    r := Ok(response);
  }

  /** Everything after `current_step` is known. */
  method Respond(mock: bool, message: string, st: AgentState, current: string, ai: AiOutcome) returns (r: Response)
    requires -|StepFlow| <= st.stepIndex <= LastStep
    ensures r == TurnAt(mock, message, st, current, ai)
  {
    var answers := st.answers;
    var idx := st.stepIndex;
    if mock {
      if message != "" {
        answers := answers[current := message];
        idx := ClampedNext(idx);
      }
      return Response(MockReply(current), AgentState(idx, answers), MockComparison(current));
    }
    var reply := FallbackReply;
    var comparison: seq<ComparisonRow> := [];
    match ai {
      case Raised(e) =>
        reply := ErrorReply(e);
      case Completed(content, decoded) =>
        var text := PyStrip(content);
        if HasBraceSpan(text) {
          if decoded.Some? {
            var j := decoded.value;
            reply := j.reply;
            comparison := j.comparison;
            if message != "" && current !in j.extracted {
              answers := answers[current := message];
            }
            answers := MergeExtracted(answers, j.extracted, StepNames);
            idx := AdvancePastAnswered(idx, answers);
          }
        } else {
          reply := text;
          if message != "" {
            answers := answers[current := message];
          }
          idx := ClampedNext(idx);
        }
    }
    r := Response(reply, AgentState(idx, answers), comparison);
  }

  // ---------------------------------------------------------------------------
  // Properties of a turn

  /** The only failure is a step index outside Python's index range; a missing state never fails. */
  lemma IndexErrorExactly(mock: bool, message: string, state: Option<AgentState>, ai: AiOutcome)
    ensures Turn(mock, message, state, ai).IndexError? <==>
              state.Some? && !(-|StepFlow| <= state.value.stepIndex < |StepFlow|)
  {
  }

  /** Mock mode: a message is stored under the current step and the index moves one step
      (clamped); an empty message leaves the state as it was. */
  lemma MockTurn(message: string, st: AgentState, ai: AiOutcome)
    requires 0 <= st.stepIndex <= LastStep
    ensures var r := Turn(true, message, Some(st), ai);
            r.Ok? &&
            r.response.reply == MockReply(StepFlow[st.stepIndex]) &&
            (message == "" ==> r.response.state == st) &&
            (message != "" ==>
               r.response.state.answers == st.answers[StepFlow[st.stepIndex] := message] &&
               r.response.state.stepIndex == ClampedNext(st.stepIndex))
  {
  }

  /** JSON mode answers with the decoded reply and comparison rows, and the state `JsonState`
      describes (below). */
  lemma JsonTurn(message: string, st: AgentState, content: string, j: AiJson)
    requires 0 <= st.stepIndex <= LastStep
    requires HasBraceSpan(PyStrip(content))
    ensures Turn(false, message, Some(st), Completed(content, Some(j))) ==
            Ok(Response(j.reply, JsonState(st, StepFlow[st.stepIndex], message, j.extracted), j.comparison))
  {
    var current := StepFlow[st.stepIndex];
    var ai := Completed(content, Some(j));
    assert Turn(false, message, Some(st), ai) == Ok(TurnAt(false, message, st, current, ai));
  }

  /** The JSON-mode state: the message is stored under the current step only when nothing was
      extracted for it, extracted keys land only when they name a step, and the index stops at
      the first unanswered step, never moving back nor past the last step. */
  lemma JsonStateSpec(st: AgentState, message: string, extracted: map<string, string>)
    requires 0 <= st.stepIndex <= LastStep
    ensures var current := StepFlow[st.stepIndex];
            var s := JsonState(st, current, message, extracted);
            var a := s.answers;
            && (forall k :: k in a <==> (k in st.answers || (k in extracted && k in StepNames) || (k == current && message != "")))
            && (forall k :: k in extracted && k in StepNames ==> a[k] == extracted[k])
            && (message != "" && current !in extracted ==> a[current] == message)
            && (forall k :: k in st.answers && !(k in extracted && k in StepNames) && !(k == current && message != "") ==> a[k] == st.answers[k])
            && st.stepIndex <= s.stepIndex <= LastStep
            && (forall i :: st.stepIndex <= i < s.stepIndex ==> StepFlow[i] in a)
            && (s.stepIndex == LastStep || StepFlow[s.stepIndex] !in a)
  {
    var current := StepFlow[st.stepIndex];
    StepNamesFromFlow(st.stepIndex);
    JsonAnswersSpec(st, current, message, extracted);
    var a := JsonAnswers(st, current, message, extracted);
    SkipAnsweredSpec(st.stepIndex, a);
    var n := SkipAnswered(st.stepIndex, a);
    forall i | st.stepIndex <= i < n ensures StepFlow[i] in a {
      assert StepAt(i) == Some(StepFlow[i]);
    }
    assert n == LastStep || StepFlow[n] !in a by {
      assert StepAt(n) == Some(StepFlow[n]);
    }
  }

  lemma JsonAnswersSpec(st: AgentState, current: string, message: string, extracted: map<string, string>)
    requires current in StepNames
    ensures var a := JsonAnswers(st, current, message, extracted);
            && (forall k :: k in a <==> (k in st.answers || (k in extracted && k in StepNames) || (k == current && message != "")))
            && (forall k :: k in extracted && k in StepNames ==> a[k] == extracted[k])
            && (message != "" && current !in extracted ==> a[current] == message)
            && (forall k :: k in st.answers && !(k in extracted && k in StepNames) && !(k == current && message != "") ==> a[k] == st.answers[k])
  {
  }

  /** A plain-text completion: the stripped text is the reply, a message is stored, and the
      index moves exactly one step, clamped at the last. */
  lemma PlainTurn(message: string, st: AgentState, content: string)
    requires 0 <= st.stepIndex <= LastStep
    requires !HasBraceSpan(PyStrip(content))
    ensures forall d: Option<AiJson> ::
              var r := Turn(false, message, Some(st), Completed(content, d));
              r.Ok? && r.response.reply == PyStrip(content) && r.response.comparisonData == [] &&
              r.response.state == AgentState(ClampedNext(st.stepIndex), Record(st.answers, StepFlow[st.stepIndex], message))
  {
  }

  /** A failed call or an undecodable JSON span leaves the state exactly as it came in. */
  lemma FailureKeepsState(message: string, st: AgentState, ai: AiOutcome)
    requires 0 <= st.stepIndex <= LastStep
    requires ai.Raised? || (HasBraceSpan(PyStrip(ai.content)) && ai.decoded.None?)
    ensures var r := Turn(false, message, Some(st), ai);
            r.Ok? && r.response.state == st && r.response.comparisonData == [] &&
            r.response.reply == (if ai.Raised? then ErrorReply(ai.error) else FallbackReply)
  {
  }

  /** Every mode keeps a step index inside the flow and never moves it back. */
  lemma StepIndexStaysInFlow(mock: bool, message: string, st: AgentState, ai: AiOutcome)
    requires 0 <= st.stepIndex <= LastStep
    ensures var r := Turn(mock, message, Some(st), ai);
            r.Ok? && st.stepIndex <= r.response.state.stepIndex <= LastStep
  {
    if !mock && ai.Completed? && HasBraceSpan(PyStrip(ai.content)) && ai.decoded.Some? {
      SkipAnsweredSpec(st.stepIndex, JsonAnswers(st, StepFlow[st.stepIndex], message, ai.decoded.value.extracted));
    }
  }
}
