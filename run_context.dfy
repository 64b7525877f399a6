/**
 * The per-run context wrapper (`RunContext`): the caller's context value and
 * one usage accumulator created with the wrapper.
 */
module Contexts {
  import opened Values
  import opened Usages

  class RunContext {
    /** The caller's context value, as given to `run`. */
    var context: Value
    /** The usage accumulator; the wrapper never replaces it, it only adds into it. */
    const usage: Usage

    /** `new RunContext($context)`: stores the value and starts a zero usage. */
    constructor(context: Value)
      ensures this.context == context
      ensures fresh(usage)
      ensures usage.Snapshot() == NoUsage
    {
      this.context := context;
      usage := new Usage.Empty();
    }

    /** `setContext($context)`: replaces the value, keeps the usage, returns this wrapper. */
    method SetContext(context: Value) returns (r: RunContext)
      modifies this
      ensures r == this
      ensures this.context == context
    {
      this.context := context;
      r := this;
    }

    /** `addUsage($usage)`: adds into the wrapper's own usage; the context value is untouched. */
    method AddUsage(u: Usage) returns (r: RunContext)
      modifies usage
      ensures r == this
      ensures usage.Snapshot() == Sum(old(usage.Snapshot()), old(u.Snapshot()))
    {
      var _ := usage.Add(u);
      r := this;
    }
  }
}
