/**
 * Per-run configuration (`RunConfig`): a record of public fields with
 * defaults, some taken from the application configuration, and fluent
 * setters that assign one field and return the same object.
 */
module RunConfigs {
  import opened Values
  import opened Settings
  import opened Agents
  import opened Guardrails

  /**
   * What the application container and configuration supply: the values of
   * `agents.default_max_turns`, `agents.default_model`,
   * `agents.tracing.enabled` and `agents.tracing.include_sensitive_data`
   * (`None` when the key is absent), and the bound model provider.
   */
  datatype AppConfig = AppConfig(
    defaultMaxTurns: Option<int>,
    defaultModel: Option<string>,
    tracingEnabled: Option<Value>,
    includeSensitiveData: Option<Value>,
    provider: ProviderId)

  /** The workflow name a configuration starts with. */
  const DefaultWorkflowName := "Agent workflow"

  /** The fields of a run configuration, as a value. */
  datatype ConfigState = ConfigState(
    model: ModelChoice,
    modelProvider: ProviderId,
    modelSettings: Option<ModelSettings>,
    handoffInputFilter: Option<FilterId>,
    inputGuardrails: seq<InputGuardrail>,
    outputGuardrails: seq<OutputGuardrail>,
    tracingDisabled: bool,
    traceIncludeSensitiveData: Value,
    workflowName: string,
    traceId: Option<string>,
    groupId: Option<string>,
    traceMetadata: Option<Value>)

  /** The state `new RunConfig()` produces under an application configuration. */
  function InitialState(app: AppConfig): (s: ConfigState)
    ensures s.model == NoModel && s.modelSettings == None && s.handoffInputFilter == None
    ensures s.inputGuardrails == [] && s.outputGuardrails == []
    ensures s.workflowName == DefaultWorkflowName
    ensures s.traceId == None && s.groupId == None && s.traceMetadata == None
    ensures s.modelProvider == app.provider
    ensures s.tracingDisabled <==> (app.tracingEnabled.Some? && !Truthy(app.tracingEnabled.value))
    ensures s.traceIncludeSensitiveData == app.includeSensitiveData.GetOr(VBool(false))
  {
    ConfigState(NoModel, app.provider, None, None, [], [], !Truthy(app.tracingEnabled.GetOr(VBool(true))),
                app.includeSensitiveData.GetOr(VBool(false)), DefaultWorkflowName, None, None, None)
  }

  class RunConfig {
    var model: ModelChoice
    var modelProvider: ProviderId
    var modelSettings: Option<ModelSettings>
    var handoffInputFilter: Option<FilterId>
    var inputGuardrails: seq<InputGuardrail>
    var outputGuardrails: seq<OutputGuardrail>
    var tracingDisabled: bool
    /** An untyped property: it holds whatever the configuration supplies until a setter stores a bool. */
    var traceIncludeSensitiveData: Value
    var workflowName: string
    var traceId: Option<string>
    var groupId: Option<string>
    var traceMetadata: Option<Value>

    function State(): ConfigState
      reads this
    {
      ConfigState(model, modelProvider, modelSettings, handoffInputFilter, inputGuardrails, outputGuardrails,
                  tracingDisabled, traceIncludeSensitiveData, workflowName, traceId, groupId, traceMetadata)
    }

    /**
     * `new RunConfig()`: the field defaults, then the container's provider,
     * tracing disabled exactly when `agents.tracing.enabled` (default true)
     * is falsy, and the sensitive-data flag from the configuration (default false).
     */
    constructor(app: AppConfig)
      ensures State() == InitialState(app)
    {
      model := NoModel;
      modelSettings := None;
      handoffInputFilter := None;
      inputGuardrails := [];
      outputGuardrails := [];
      workflowName := DefaultWorkflowName;
      traceId := None;
      groupId := None;
      traceMetadata := None;
      modelProvider := app.provider;
      tracingDisabled := !Truthy(app.tracingEnabled.GetOr(VBool(true)));
      traceIncludeSensitiveData := app.includeSensitiveData.GetOr(VBool(false));
    }

    /** `withModel($model)`. */
    method WithModel(model: ModelChoice) returns (r: RunConfig)
      modifies this
      ensures r == this && State() == old(State()).(model := model)
    {
      this.model := model;
      r := this;
    }

    /** `withModelProvider($provider)`. */
    method WithModelProvider(provider: ProviderId) returns (r: RunConfig)
      modifies this
      ensures r == this && State() == old(State()).(modelProvider := provider)
    {
      modelProvider := provider;
      r := this;
    }

    /** `withModelSettings($settings)`. */
    method WithModelSettings(settings: ModelSettings) returns (r: RunConfig)
      modifies this
      ensures r == this && State() == old(State()).(modelSettings := Some(settings))
    {
      modelSettings := Some(settings);
      r := this;
    }

    /** `withHandoffInputFilter($filter)`. */
    method WithHandoffInputFilter(filter: FilterId) returns (r: RunConfig)
      modifies this
      ensures r == this && State() == old(State()).(handoffInputFilter := Some(filter))
    {
      handoffInputFilter := Some(filter);
      r := this;
    }

    /** `withInputGuardrails($guardrails)`. */
    method WithInputGuardrails(guardrails: seq<InputGuardrail>) returns (r: RunConfig)
      modifies this
      ensures r == this && State() == old(State()).(inputGuardrails := guardrails)
    {
      inputGuardrails := guardrails;
      r := this;
    }

    /** `withOutputGuardrails($guardrails)`. */
    method WithOutputGuardrails(guardrails: seq<OutputGuardrail>) returns (r: RunConfig)
      modifies this
      ensures r == this && State() == old(State()).(outputGuardrails := guardrails)
    {
      outputGuardrails := guardrails;
      r := this;
    }

    /** `withTracingDisabled($disabled = true)`. */
    method WithTracingDisabled(disabled: bool := true) returns (r: RunConfig)
      modifies this
      ensures r == this && State() == old(State()).(tracingDisabled := disabled)
    {
      tracingDisabled := disabled;
      r := this;
    }

    /** `withTraceIncludeSensitiveData($include = true)`. */
    method WithTraceIncludeSensitiveData(sensitive: bool := true) returns (r: RunConfig)
      modifies this
      ensures r == this && State() == old(State()).(traceIncludeSensitiveData := VBool(sensitive))
    {
      traceIncludeSensitiveData := VBool(sensitive);
      r := this;
    }

    /** `withWorkflowName($name)`. */
    method WithWorkflowName(name: string) returns (r: RunConfig)
      modifies this
      ensures r == this && State() == old(State()).(workflowName := name)
    {
      workflowName := name;
      r := this;
    }

    /** `withTraceId($traceId)`. */
    method WithTraceId(traceId: string) returns (r: RunConfig)
      modifies this
      ensures r == this && State() == old(State()).(traceId := Some(traceId))
    {
      this.traceId := Some(traceId);
      r := this;
    }

    /** `withGroupId($groupId)`. */
    method WithGroupId(groupId: string) returns (r: RunConfig)
      modifies this
      ensures r == this && State() == old(State()).(groupId := Some(groupId))
    {
      this.groupId := Some(groupId);
      r := this;
    }

    /** `withTraceMetadata($metadata)`. */
    method WithTraceMetadata(metadata: Value) returns (r: RunConfig)
      requires IsArray(metadata)
      modifies this
      ensures r == this && State() == old(State()).(traceMetadata := Some(metadata))
    {
      traceMetadata := Some(metadata);
      r := this;
    }
  }
}
