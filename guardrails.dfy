/**
 * Guardrail verdicts (`Guardrails\GuardrailOutput`), the guardrail objects
 * themselves as opaque references, and the (guardrail, verdict) pairs a run
 * collects (`InputGuardrailResult`, `OutputGuardrailResult`).
 */
module Guardrails {
  import opened Values

  /** A guardrail's verdict: whether the tripwire fired, and an optional message. */
  datatype GuardrailOutput = GuardrailOutput(tripwireTriggered: bool, message: Option<string>)

  /** `new GuardrailOutput()`: not triggered, no message. */
  const DefaultOutput := GuardrailOutput(false, None)

  /** `GuardrailOutput::passed($message)`. */
  function Passed(message: Option<string>): (r: GuardrailOutput)
    ensures !r.tripwireTriggered && r.message == message
  {
    GuardrailOutput(false, message)
  }

  /** `GuardrailOutput::failed($message)`. */
  function Failed(message: string): (r: GuardrailOutput)
    ensures r.tripwireTriggered && r.message == Some(message)
  {
    GuardrailOutput(true, message := Some(message))
  }

  /**
   * An input guardrail object. Its checking behaviour is supplied to the run
   * from outside; `name` is what `getName()` returns (the class base name).
   */
  datatype InputGuardrail = InputGuardrail(id: nat, name: string)

  /** An output guardrail object, as above. */
  datatype OutputGuardrail = OutputGuardrail(id: nat, name: string)

  datatype InputGuardrailResult = InputGuardrailResult(guardrail: InputGuardrail, output: GuardrailOutput)

  datatype OutputGuardrailResult = OutputGuardrailResult(guardrail: OutputGuardrail, output: GuardrailOutput)

}
