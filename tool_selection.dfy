/**
  The tool evaluators: whether the planner chose the tool the test case
  expects, and whether the tool ran and returned airports, routes or
  border crossings.
 */
module ToolSelection {
  import opened Wrappers
  import opened PyValue
  import opened Airports
  import opened EvalRuns

  /** `evaluate_tool_selection(run, example)`; `errorText` is the text of an exception. */
  function EvaluateToolSelection(run: Run, example: Dict, errorText: string): Evaluation {
    if !HasPlan(run.plan) then
      Evaluation("tool_selection", Some(0.0), "No plan found in outputs - planner may have failed")
    else
      var actual := PlanField(run.plan, "selected_tool", VNone);
      match ExpectedOf(example)
      case Raises => Evaluation("tool_selection", Some(0.0), "Evaluation error: " + errorText)
      case Found(expected) =>
        var expectedTool := Get(expected, "tool", VNone);
        if !Truthy(expectedTool) then
          Evaluation("tool_selection", None, "No expected tool defined for this test case")
        else
          var isCorrect := PyEq(actual, expectedTool);
          Evaluation("tool_selection", Some(if isCorrect then 1.0 else 0.0),
            "Expected '" + Str(expectedTool) + "', got '" + Str(actual) + "'" +
            (if isCorrect then " \U{2713}" else " \U{2717}"))
  }

  /**
    No plan scores 0 and a case without an expected tool scores None;
    otherwise the score is 1 when the selected tool equals the expected one
    and 0 when it does not, for a plan given as a dict or as an object.
   */
  lemma ToolSelectionMeaning(run: Run, example: Dict, errorText: string)
    ensures var r := EvaluateToolSelection(run, example, errorText);
      && (!HasPlan(run.plan) ==> r.score == Some(0.0))
      && (HasPlan(run.plan) && ExpectedOf(example).Found? ==>
            var expectedTool := Get(ExpectedOf(example).value, "tool", VNone);
            && (r.score.None? <==> !Truthy(expectedTool))
            && (Truthy(expectedTool) ==>
                  (r.score == Some(1.0) <==> PyEq(PlanField(run.plan, "selected_tool", VNone), expectedTool))))
      && (r.score.Some? ==> r.score.value == 0.0 || r.score.value == 1.0)
  {
  }

  /**
    A dict plan and an object plan with the same non-empty entries are scored
    alike; an empty dict is falsy, unlike an object, so see EmptyDictPlan.
   */
  lemma DictOrObjectAlike(outputs: Dict, entries: Dict, example: Dict, errorText: string)
    requires entries != []
    ensures EvaluateToolSelection(Run(outputs, PlanDict(entries)), example, errorText) ==
      EvaluateToolSelection(Run(outputs, PlanObject(entries)), example, errorText)
  {
  }

  /** An empty dict plan is scored as no plan at all: 0, with the no-plan comment. */
  lemma EmptyDictPlan(outputs: Dict, example: Dict, errorText: string)
    ensures EvaluateToolSelection(Run(outputs, PlanDict([])), example, errorText) ==
      EvaluateToolSelection(Run(outputs, NoPlan), example, errorText)
    ensures EvaluateToolSelection(Run(outputs, PlanDict([])), example, errorText).score == Some(0.0)
  {
  }

  /**
    `evaluate_tool_execution(run, example)`: an error or a missing result
    scores 0; a dict result with airports, routes or borders scores 1, any
    other result 0.5.
   */
  function EvaluateToolExecution(run: Run): Evaluation {
    var error := Get(run.outputs, "error", VNone);
    var toolResult := Get(run.outputs, "tool_result", VNone);
    if Truthy(error) then Evaluation("tool_execution", Some(0.0), "Tool execution failed: " + Str(error))
    else if !Truthy(toolResult) then Evaluation("tool_execution", Some(0.0), "No tool result found")
    else
      var hasResults := toolResult.VDict? &&
        Truthy(Or(Or(Get(toolResult.entries, "airports", VNone), Get(toolResult.entries, "routes", VNone)),
                  Get(toolResult.entries, "borders", VNone)));
      Evaluation("tool_execution", Some(if hasResults then 1.0 else 0.5),
        "Tool executed successfully" + (if hasResults then " with results" else " but no results found"))
  }

  /** Has a truthy `airports`, `routes` or `borders` entry. */
  predicate HasResults(d: Dict) {
    Truthy(Get(d, "airports", VNone)) || Truthy(Get(d, "routes", VNone)) || Truthy(Get(d, "borders", VNone))
  }

  /**
    The execution score is 0 with an error or without a result, 1 exactly
    for a dict result with results, and 0.5 for any other result.
   */
  lemma ToolExecutionMeaning(run: Run)
    ensures var r := EvaluateToolExecution(run);
      var error := Get(run.outputs, "error", VNone);
      var toolResult := Get(run.outputs, "tool_result", VNone);
      && r.score.Some?
      && (r.score.value == 0.0 <==> Truthy(error) || !Truthy(toolResult))
      && (r.score.value == 1.0 <==> !Truthy(error) && toolResult.VDict? && toolResult.entries != [] &&
                                    HasResults(toolResult.entries))
      && (r.score.value == 0.5 <==> !Truthy(error) && Truthy(toolResult) &&
                                    !(toolResult.VDict? && HasResults(toolResult.entries)))
  {
  }
}
