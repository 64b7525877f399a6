/**
 * The outcome of a completed run (`Result\RunResult`): an immutable record
 * whose getters return the constructor arguments, and its text rendering.
 */
module Results {
  import opened Values
  import opened RunItems
  import opened ItemHelpers
  import opened Guardrails
  import opened Agents

  /** The seven constructor arguments; every getter returns one of them unchanged. */
  datatype RunResult = RunResult(
    input: RunInput,
    newItems: seq<RunItem>,
    rawResponses: seq<ModelResponse>,
    finalOutput: Value,
    lastAgent: Agent,
    inputGuardrailResults: seq<InputGuardrailResult>,
    outputGuardrailResults: seq<OutputGuardrailResult>)
  {
    /**
     * `getTextOutput()`: a string final output as it is, otherwise the text
     * of the assistant messages among the new items.
     */
    method GetTextOutput() returns (text: string)
      ensures finalOutput.VStr? ==> text == finalOutput.s
      ensures !finalOutput.VStr? ==> text == Join("\n", Contributions(newItems))
    {
      if finalOutput.VStr? {
        return finalOutput.s;
      }
      text := TextMessageOutputs(newItems);
    }
  }

  /** `new RunResult($input, $newItems, $rawResponses, $finalOutput, $lastAgent)`: both guardrail lists default to empty. */
  function NewRunResult(input: RunInput, newItems: seq<RunItem>, rawResponses: seq<ModelResponse>, finalOutput: Value, lastAgent: Agent): (r: RunResult)
    ensures r.inputGuardrailResults == [] && r.outputGuardrailResults == []
    ensures r.input == input && r.newItems == newItems && r.rawResponses == rawResponses
    ensures r.finalOutput == finalOutput && r.lastAgent == lastAgent
  {
    RunResult(input, newItems, rawResponses, finalOutput, lastAgent, [], [])
  }
}
