/**
 * The runner object (`Runner`) and the streaming result it hands out
 * (`Result\RunResultStreaming`): `run` with its loop and span bookkeeping,
 * `runStreamed`, and the streaming result's setters, `stream` and `wait`.
 * The two classes refer to each other, so they share this module.
 */
module RunnerClass {
  import opened Values
  import opened Contexts
  import opened Settings
  import opened RunItems
  import opened ItemHelpers
  import opened Guardrails
  import opened Tools
  import opened Agents
  import opened Tracing
  import opened RunConfigs
  import opened Results
  import opened Runners

  class Runner {
    const modelProvider: ProviderId
    const trace: Trace
    /** The application configuration the container supplies. */
    const app: AppConfig
    const env: Collaborators

    /** `new Runner($modelProvider, $trace)`. */
    constructor(modelProvider: ProviderId, trace: Trace, app: AppConfig, env: Collaborators)
      ensures this.modelProvider == modelProvider && this.trace == trace && this.app == app && this.env == env
    {
      this.modelProvider := modelProvider;
      this.trace := trace;
      this.app := app;
      this.env := env;
    }

    /**
     * `runStreamed` (Runner.php:199-242): the configuration and the limit
     * are resolved as in `run`, a context wrapper is made and the trace is
     * started; the result holds the input, the starting agent and the limit,
     * is not complete, and knows this runner, the wrapper and the
     * configuration. No turn runs until `wait`.
     */
    method RunStreamed(startingAgent: Agent, input: RunInput, context: Value, maxTurns: Option<int>, runConfig: RunConfig?)
      returns (streamed: RunResultStreaming)
      requires trace.Valid()
      modifies trace`traceId, trace`groupId, trace`workflowName, trace`metadata, trace`startTime
      modifies trace`clockReads, trace`uuidsIssued, trace`notifications, trace`calls
      ensures trace.Valid() && fresh(streamed)
      ensures streamed.input == input && streamed.currentAgent == startingAgent
      ensures streamed.newItems == [] && streamed.rawResponses == [] && streamed.finalOutput == VNull
      ensures !streamed.isComplete && streamed.currentTurn == 0 && streamed.maxTurns == ResolveMaxTurns(maxTurns, app)
      ensures streamed.inputGuardrailResults == [] && streamed.outputGuardrailResults == []
      ensures streamed.runner == this && streamed.Pending()
      ensures streamed.context != null && fresh(streamed.context) && streamed.context.context == context
      ensures streamed.runConfig != null && streamed.runConfig.State() == old(ConfigOf(runConfig, app))
      ensures runConfig != null ==> streamed.runConfig == runConfig
      ensures var config := streamed.runConfig.State();
        trace.calls == old(trace.calls) + [StartCalled(config.workflowName, config.traceId, config.groupId, config.traceMetadata)]
    {
      var config := runConfig;
      if config == null {
        config := new RunConfig(app);
      }
      var L := ResolveMaxTurns(maxTurns, app);
      var contextWrapper := new RunContext(context);
      StartTrace(config);
      streamed := new RunResultStreaming(input, [], startingAgent, [], VNull, false, 0, L, [], []);
      var _ := streamed.SetRunner(this);
      var _ := streamed.SetContext(contextWrapper);
      var _ := streamed.SetRunConfig(config);
    }

    /** `run` with a given limit and configuration, as `wait` calls it, with what it produced. */
    method RunFor(startingAgent: Agent, input: RunInput, context: Value, maxTurns: int, runConfig: RunConfig)
      returns (r: Result<RunResult, RunError>, ghost made: Option<RunRecord>)
      requires trace.Valid()
      modifies trace
      ensures trace.Valid() && made.Some? && made.value.run == r && Unmoved(made.value.m)
      ensures RanWith(made.value, this, startingAgent, input, context, maxTurns, old(runConfig.State()))
    {
      ghost var p, m, turns, names, ids;
      r, p, m, turns, names, ids := Run(startingAgent, input, context, Some(maxTurns), runConfig);
      made := Some(RunRecord(r, p, m, turns, names, ids));
    }

    /** `runSingleTurn` for an agent whose fields are `fields`: prompt, input, model and settings, the model call, classification and effects. */
    method RunSingleTurn(p: RunParams, agent: Agent, items: seq<RunItem>, ghost fields: AgentState)
      returns (request: ModelRequest, r: Result<TurnResult, RunError>)
      requires agent.State() == fields
      ensures request == TurnRequest(p, agent, fields, items)
      ensures r == TurnOutcome(p, fields, items, request)
    {
      var systemPrompt := agent.GetSystemPrompt(p.context, p.env.closures);
      var input := PrepareInput(p.input, items);
      var model := SelectModel(p.config.model, agent.model, p.provider, p.defaultModel, p.env.lookup);
      var settings := ResolveModelSettings(agent.modelSettings, p.config.modelSettings);
      request := ModelRequest(model, systemPrompt, input, settings, agent.tools, agent.outputType, agent.handoffs);
      var response := p.env.respond(request);
      if response.None? {
        return request, Failure(ModelCallFailed(request));
      }
      var processed := ProcessModelResponse(response.value.output, agent.outputType, agent.handoffs);
      r := ExecuteToolsAndSideEffects(agent.tools, p.input, items, response.value, processed, p.context, p.env.invoke);
    }

    /**
     * `run`: the configuration (a new one when none is given) and the turn
     * limit are resolved, the trace is started, the loop runs, and the
     * `finally` block finishes the open span and the trace. `turns` are the
     * completed turns, `names` and `ids` the agent names and ids of the
     * spans opened, in order, and `m` the fields of the agents met.
     */
    method Run(startingAgent: Agent, input: RunInput, context: Value, maxTurns: Option<int>, runConfig: RunConfig?)
      returns (r: Result<RunResult, RunError>, ghost p: RunParams, ghost m: map<Agent, AgentState>,
               ghost turns: seq<Turn>, ghost names: seq<string>, ghost ids: seq<string>)
      requires trace.Valid()
      modifies trace`traceId, trace`groupId, trace`workflowName, trace`metadata, trace`startTime, trace`endTime
      modifies trace`spans, trace`currentSpan, trace`clockReads, trace`uuidsIssued, trace`notifications, trace`calls
      ensures trace.Valid()
      ensures p == RunParams(startingAgent, input, context, old(ConfigOf(runConfig, app)), modelProvider, app.defaultModel, env)
      ensures Unmoved(m) && Consistent(p, m, Bound(ResolveMaxTurns(maxTurns, app)), turns, names, ids, true)
      ensures Outcome(p, m, ResolveMaxTurns(maxTurns, app), turns, r)
      ensures var config := p.config;
        |names| == |ids| > 0 &&
        trace.calls == old(trace.calls) + [StartCalled(config.workflowName, config.traceId, config.groupId, config.traceMetadata)] +
                       SpanLog(names, ids, r) + [FinishCalled]
    {
      var config := runConfig;
      if config == null {
        config := new RunConfig(app);
      }
      var L := ResolveMaxTurns(maxTurns, app);
      var params := RunParams(startingAgent, input, context, config.State(), modelProvider, app.defaultModel, env);
      p := params;
      StartTrace(config);
      r, m, turns, names, ids := TryFinally(params, L);
    }

    /** The `try` block of `run` (lines 88-180) with its `finally` block (lines 181-186). */
    method TryFinally(p: RunParams, L: int)
      returns (r: Result<RunResult, RunError>, ghost m: map<Agent, AgentState>,
               ghost turns: seq<Turn>, ghost names: seq<string>, ghost ids: seq<string>)
      requires trace.Ready()
      modifies trace`spans, trace`currentSpan, trace`endTime, trace`clockReads, trace`uuidsIssued, trace`notifications, trace`calls
      ensures trace.Ready()
      ensures Unmoved(m) && Consistent(p, m, Bound(L), turns, names, ids, true)
      ensures Outcome(p, m, L, turns, r)
      ensures |names| == |ids| > 0 && trace.calls == old(trace.calls) + SpanLog(names, ids, r) + [FinishCalled]
    {
      ghost var started := trace.calls;
      var spanId;
      ghost var g;
      r, spanId, g := Loop(p, L);
      m, turns, names, ids := g.m, g.turns, g.names, g.ids;
      Finally(spanId, m);
      RunLog(names, ids, r);
      Regroup(started, OpenLog(names, ids, true), LoopExitCalls(r, spanId), SpanFinishCalled(spanId), FinishCalled);
    }

    /**
     * The `finally` block of `run` (lines 181-186): the open span is
     * finished, then the trace; no agent is touched.
     */
    method Finally(spanId: string, ghost m: map<Agent, AgentState>)
      requires trace.Ready() && Unmoved(m)
      modifies trace`spans, trace`currentSpan, trace`endTime, trace`clockReads, trace`notifications, trace`calls
      ensures trace.Ready() && Unmoved(m)
      ensures trace.calls == old(trace.calls) + [SpanFinishCalled(spanId), FinishCalled]
    {
      CloseSpan(spanId);
      FinishTrace();
    }

    /**
     * The `while (true)` loop of `run` (lines 88-180): `spanId` is the span
     * still open when it exits, which the `finally` block finishes.
     */
    method Loop(p: RunParams, L: int) returns (r: Result<RunResult, RunError>, spanId: string, ghost g: Progress)
      requires trace.Ready()
      modifies trace`spans, trace`currentSpan, trace`clockReads, trace`uuidsIssued, trace`notifications, trace`calls
      ensures trace.Ready()
      ensures Unmoved(g.m) && Ended(p, L, g, r, spanId)
      ensures trace.calls == old(trace.calls) + OpenLog(g.names, g.ids, true) + LoopExitCalls(r, spanId)
    {
      var s := LoopState(0, [], [], [], p.start, None);
      g := Progress(map[p.start := p.start.State()], [], [], []);
      ghost var base := trace.calls;
      Started(p, L, p.start.State());
      while true
        invariant trace.Ready()
        invariant Unmoved(g.m) && Between(p, L, s, g)
        invariant trace.calls == base + OpenLog(g.names, g.ids, s.span.Some?)
        decreases L - s.currentTurn
      {
        var done;
        done, spanId, s, g := Step(p, L, s, g, base);
        if done.Some? {
          return done.value, spanId, g;
        }
      }
    }

    /** One pass of the loop (lines 89-179); `spanId` is the span open during it. */
    method Step(p: RunParams, L: int, s: LoopState, ghost g: Progress, ghost base: seq<TraceCall>)
      returns (done: Option<Result<RunResult, RunError>>, spanId: string, s': LoopState, ghost g': Progress)
      requires trace.Ready() && Unmoved(g.m) && Between(p, L, s, g)
      requires trace.calls == base + OpenLog(g.names, g.ids, s.span.Some?)
      modifies trace`spans, trace`currentSpan, trace`clockReads, trace`uuidsIssued, trace`notifications, trace`calls
      ensures trace.Ready() && Unmoved(g'.m)
      ensures done.Some? ==> Ended(p, L, g', done.value, spanId) &&
                             trace.calls == base + OpenLog(g'.names, g'.ids, true) + LoopExitCalls(done.value, spanId)
      ensures done.None? ==> Between(p, L, s', g') && s'.currentTurn == s.currentTurn + 1 <= L &&
                             trace.calls == base + OpenLog(g'.names, g'.ids, s'.span.Some?)
    {
      done, s', g' := Enter(p, L, s, g, base);
      spanId := s'.span.value;
      if done.None? {
        done, s', g' := Advance(p, L, s', g', base);
      }
    }

    /**
     * Lines 90-111: a span for the agent when none is open, then the turn
     * limit; `done` holds the run's result when the limit is reached.
     */
    method Enter(p: RunParams, L: int, s: LoopState, ghost g: Progress, ghost base: seq<TraceCall>)
      returns (done: Option<Result<RunResult, RunError>>, s': LoopState, ghost g': Progress)
      requires trace.Ready() && Unmoved(g.m) && Between(p, L, s, g)
      requires trace.calls == base + OpenLog(g.names, g.ids, s.span.Some?)
      modifies trace`spans, trace`currentSpan, trace`clockReads, trace`uuidsIssued, trace`notifications, trace`calls
      ensures trace.Ready() && Unmoved(g'.m) && s'.span.Some?
      ensures done.Some? ==> Ended(p, L, g', done.value, s'.span.value) &&
                             trace.calls == base + OpenLog(g'.names, g'.ids, true) + LoopExitCalls(done.value, s'.span.value)
      ensures done.None? ==> Between(p, L, s', g') && s'.currentTurn == s.currentTurn && s'.currentTurn + 1 <= L &&
                             trace.calls == base + OpenLog(g'.names, g'.ids, true)
    {
      s', g' := s, g;
      if s.span.None? {
        s', g' := Begin(p, L, s, g, base);
      }
      done := None;
      if s'.currentTurn + 1 > L {
        var r := ExceedMaxTurns(p, L, s', g', base);
        done := Some(r);
      }
    }

    /** Lines 90-101: with no span open, a span is opened for the agent. */
    method Begin(ghost p: RunParams, ghost L: int, s: LoopState, ghost g: Progress, ghost base: seq<TraceCall>)
      returns (s': LoopState, ghost g': Progress)
      requires trace.Ready() && Unmoved(g.m) && Between(p, L, s, g) && s.span.None?
      requires trace.calls == base + OpenLog(g.names, g.ids, false)
      modifies trace`spans, trace`currentSpan, trace`clockReads, trace`uuidsIssued, trace`notifications, trace`calls
      ensures trace.Ready() && Unmoved(g'.m) && Between(p, L, s', g')
      ensures s'.span.Some? && s'.currentTurn == s.currentTurn
      ensures trace.calls == base + OpenLog(g'.names, g'.ids, true)
    {
      ghost var name := s.agent.name;
      assert s.agent.State() == g.m[s.agent];
      var id := OpenSpan(s.agent);
      OpenSpanLog(base, g.names, g.ids, name, id);
      Opened(p, L, s, g, id);
      s' := s.(span := Some(id));
      g' := g.(names := g.names + [name], ids := g.ids + [id]);
    }

    /** Lines 103-111: past the limit, the open span records the error and the run fails. */
    method ExceedMaxTurns(ghost p: RunParams, L: int, s: LoopState, ghost g: Progress, ghost base: seq<TraceCall>)
      returns (r: Result<RunResult, RunError>)
      requires trace.Ready() && Unmoved(g.m) && Between(p, L, s, g)
      requires s.span.Some? && s.currentTurn + 1 > L
      requires trace.calls == base + OpenLog(g.names, g.ids, true)
      modifies trace`spans, trace`notifications, trace`calls
      ensures trace.Ready() && Unmoved(g.m) && Ended(p, L, g, r, s.span.value)
      ensures trace.calls == base + OpenLog(g.names, g.ids, true) + LoopExitCalls(r, s.span.value)
    {
      LimitReached(p, L, s, g);
      ErrorSpan(s.span.value, L);
      r := Failure(MaxTurnsExceeded(L));
    }

    /**
     * Lines 113-179, one turn: the input guardrails on the first turn, the
     * turn itself, then what its next step says. `done` holds the run's
     * result when the run ends here.
     */
    method Advance(p: RunParams, L: int, s: LoopState, ghost g: Progress, ghost base: seq<TraceCall>)
      returns (done: Option<Result<RunResult, RunError>>, s': LoopState, ghost g': Progress)
      requires trace.Ready() && Unmoved(g.m) && Between(p, L, s, g)
      requires s.span.Some? && s.currentTurn + 1 <= L
      requires trace.calls == base + OpenLog(g.names, g.ids, true)
      modifies trace`spans, trace`currentSpan, trace`clockReads, trace`notifications, trace`calls
      ensures trace.Ready() && Unmoved(g'.m)
      ensures done.Some? ==> Ended(p, L, g', done.value, s.span.value) &&
                             trace.calls == base + OpenLog(g'.names, g'.ids, true) + LoopExitCalls(done.value, s.span.value)
      ensures done.None? ==> Between(p, L, s', g') && s'.currentTurn == s.currentTurn + 1 &&
                             trace.calls == base + OpenLog(g'.names, g'.ids, s'.span.Some?)
    {
      var attempt := Attempt(p, L, s, g);
      if attempt.Failure? {
        QuietExit(trace.calls, Failure(attempt.error), s.span.value);
        return Some(Failure(attempt.error)), s, g;
      }
      var (inputResults, request, res) := attempt.value;
      done, s', g' := Proceed(p, L, s, g, Turn(s.agent, g.m[s.agent], s.items, request, res), res, inputResults, base);
    }

    /**
     * Lines 113-141: the input guardrails (on the first turn) and then one
     * turn; either failure ends the loop, a turn made is handed on.
     */
    method Attempt(p: RunParams, L: int, s: LoopState, ghost g: Progress)
      returns (attempt: Result<(seq<InputGuardrailResult>, ModelRequest, TurnResult), RunError>)
      requires Unmoved(g.m) && Between(p, L, s, g)
      requires s.span.Some? && s.currentTurn + 1 <= L
      ensures attempt.Failure? ==> Ended(p, L, g, Failure(attempt.error), s.span.value) && !attempt.error.MaxTurnsExceeded?
      ensures attempt.Success? ==>
        Made(p, L, s, g, Turn(s.agent, g.m[s.agent], s.items, attempt.value.1, attempt.value.2), attempt.value.0)
    {
      var gr := StartingGuardrails(p, L, s, g);
      if gr.Failure? {
        InputTripped(p, L, s, g, gr.error);
        return Failure(gr.error);
      }
      ghost var st := g.m[s.agent];
      var request, t := RunSingleTurn(p, s.agent, s.items, st);
      if t.Failure? {
        TurnFailed(p, L, s, g, t.error, gr.value);
        return Failure(t.error);
      }
      TurnMade(p, L, s, g, request, t.value, gr.value);
      attempt := Success((gr.value, request, t.value));
    }

    /** Lines 149-179: a final output ends the run, a handoff or another round continues it. */
    method Proceed(p: RunParams, ghost L: int, s: LoopState, ghost g: Progress, ghost t: Turn, res: TurnResult,
                   inputResults: seq<InputGuardrailResult>, ghost base: seq<TraceCall>)
      returns (done: Option<Result<RunResult, RunError>>, s': LoopState, ghost g': Progress)
      requires trace.Ready() && Unmoved(g.m) && Made(p, L, s, g, t, inputResults) && t.result == res
      requires trace.calls == base + OpenLog(g.names, g.ids, true)
      modifies trace`spans, trace`currentSpan, trace`clockReads, trace`notifications, trace`calls
      ensures trace.Ready() && Unmoved(g'.m)
      ensures done.Some? ==> Ended(p, L, g', done.value, s.span.value) &&
                             trace.calls == base + OpenLog(g'.names, g'.ids, true) + LoopExitCalls(done.value, s.span.value)
      ensures done.None? ==> Between(p, L, s', g') && s'.currentTurn == s.currentTurn + 1 &&
                             trace.calls == base + OpenLog(g'.names, g'.ids, s'.span.Some?)
    {
      match res.nextStep {
        case NextFinalOutput(o) =>
          FinalStep(p, L, s, g, t, inputResults);
          s', g' := After(s, res, inputResults), g.(turns := g.turns + [t]);
          var r := Finish(p, L, s', g', o, base);
          done := Some(r);
        case NextHandoff(a) =>
          done := None;
          s', g' := HandOff(p, L, s, g, t, res, inputResults, base);
        case NextRunAgain =>
          AgainStep(p, L, s, g, t, inputResults);
          done, s', g' := None, After(s, res, inputResults), g.(turns := g.turns + [t]);
      }
    }

    /**
     * Lines 115-122: on the first turn the starting agent's input
     * guardrails run on the input; afterwards the results of that pass stand.
     */
    method StartingGuardrails(p: RunParams, ghost L: int, s: LoopState, ghost g: Progress)
      returns (gr: Result<seq<InputGuardrailResult>, RunError>)
      requires Unmoved(g.m) && Between(p, L, s, g)
      ensures gr == if s.currentTurn == 0 then InputOutcome(g.m[p.start].inputGuardrails, InputValue(p.input), p.context, p.start, p.env.checkInput)
                    else Success(s.inputResults)
      ensures s.currentTurn > 0 ==> gr == InputOutcome(g.m[p.start].inputGuardrails, InputValue(p.input), p.context, p.start, p.env.checkInput)
    {
      if s.currentTurn == 0 {
        assert p.start.State() == g.m[p.start];
        ghost var evaluated;
        gr, evaluated := RunInputGuardrails(p.start, p.start.inputGuardrails, InputValue(p.input), p.context, p.env.checkInput);
      } else {
        gr := Success(s.inputResults);
      }
    }

    /** Lines 170-174: a handoff finishes the span and the next round starts with the new agent and no span. */
    method HandOff(ghost p: RunParams, ghost L: int, s: LoopState, ghost g: Progress, ghost t: Turn, res: TurnResult,
                   inputResults: seq<InputGuardrailResult>, ghost base: seq<TraceCall>)
      returns (s': LoopState, ghost g': Progress)
      requires trace.Ready() && Unmoved(g.m) && Made(p, L, s, g, t, inputResults)
      requires t.result == res && res.nextStep.NextHandoff?
      requires trace.calls == base + OpenLog(g.names, g.ids, true)
      modifies trace`spans, trace`currentSpan, trace`clockReads, trace`notifications, trace`calls
      ensures trace.Ready() && Unmoved(g'.m) && Between(p, L, s', g') && s'.currentTurn == s.currentTurn + 1
      ensures trace.calls == base + OpenLog(g'.names, g'.ids, s'.span.Some?)
    {
      var a := res.nextStep.newAgent;
      ghost var v := a.State();
      Record(g.m, a);
      s' := After(s, res, inputResults).(agent := a, span := None);
      g' := Progress(g.m[a := v], g.turns + [t], g.names, g.ids);
      HandoffStep(p, L, s, g, t, inputResults, v, s', g');
      LeaveSpan(s.span.value, base, g.names, g.ids, g'.m);
    }

    /** Lines 151-169: the final output's guardrails run, the span is finished and the result is built. */
    method Finish(p: RunParams, ghost L: int, s: LoopState, ghost g: Progress, o: Value, ghost base: seq<TraceCall>)
      returns (r: Result<RunResult, RunError>)
      requires trace.Ready() && Unmoved(g.m)
      requires Consistent(p, g.m, Bound(L), g.turns, g.names, g.ids, true) && Closing(p, g, s, o)
      requires trace.calls == base + OpenLog(g.names, g.ids, true)
      modifies trace`spans, trace`currentSpan, trace`clockReads, trace`notifications, trace`calls
      ensures trace.Ready() && Unmoved(g.m) && Ended(p, L, g, r, s.span.value)
      ensures trace.calls == base + OpenLog(g.names, g.ids, true) + LoopExitCalls(r, s.span.value)
    {
      assert s.agent.State() == g.m[s.agent];
      ghost var evaluated;
      var og;
      og, evaluated := RunOutputGuardrails(s.agent.outputGuardrails, s.agent, o, p.context, p.env.checkOutput);
      if og.Failure? {
        OutputTripped(p, L, g, s, o, og.error);
        QuietExit(trace.calls, Failure(og.error), s.span.value);
        return Failure(og.error);
      }
      r := Complete(p, L, s, g, o, og.value, base);
    }

    /** Lines 159-168: the output guardrails passed, so the span is finished and the run's result is built. */
    method Complete(p: RunParams, ghost L: int, s: LoopState, ghost g: Progress, o: Value, results: seq<OutputGuardrailResult>,
                    ghost base: seq<TraceCall>)
      returns (r: Result<RunResult, RunError>)
      requires trace.Ready() && Unmoved(g.m)
      requires Consistent(p, g.m, Bound(L), g.turns, g.names, g.ids, true) && Closing(p, g, s, o)
      requires OutputOutcome(g.m[s.agent].outputGuardrails, o, p.context, s.agent, p.env.checkOutput) == Success(results)
      requires trace.calls == base + OpenLog(g.names, g.ids, true)
      modifies trace`spans, trace`currentSpan, trace`clockReads, trace`notifications, trace`calls
      ensures trace.Ready() && Unmoved(g.m)
      ensures r == Success(RunResult(p.input, s.items, s.responses, o, s.agent, s.inputResults, results))
      ensures Ended(p, L, g, r, s.span.value)
      ensures trace.calls == base + OpenLog(g.names, g.ids, true) + LoopExitCalls(r, s.span.value)
    {
      Succeeded(p, L, g, s, o, results);
      CloseSpan(s.span.value);
      r := Success(RunResult(p.input, s.items, s.responses, o, s.agent, s.inputResults, results));
    }

    method StartTrace(config: RunConfig)
      requires trace.Valid()
      modifies trace`traceId, trace`groupId, trace`workflowName, trace`metadata, trace`startTime
      modifies trace`clockReads, trace`uuidsIssued, trace`notifications, trace`calls
      ensures trace.Ready()
      ensures trace.calls == old(trace.calls) + [StartCalled(config.workflowName, config.traceId, config.groupId, config.traceMetadata)]
    {
      var _ := trace.Start(config.workflowName, config.traceId, config.groupId, config.traceMetadata);
    }

    /** Lines 90-101: a span for the agent, with its handoff names, tool names and output type (default `string`). */
    method OpenSpan(agent: Agent) returns (spanId: string)
      requires trace.Ready()
      modifies trace`spans, trace`currentSpan, trace`clockReads, trace`uuidsIssued, trace`notifications, trace`calls
      ensures trace.Ready()
      ensures trace.calls == old(trace.calls) + [SpanStartCalled(agent.name, spanId)]
    {
      var handoffNames := GetHandoffNames(agent);
      var toolNames := GetToolNames(agent);
      var typeError;
      spanId, typeError := trace.StartAgentSpan(agent.name, handoffNames, toolNames, agent.outputType.GetOr("string"));
      assert !typeError;
    }

    method ErrorSpan(spanId: string, maxTurns: int)
      requires trace.Ready()
      modifies trace`spans, trace`notifications, trace`calls
      ensures trace.Ready()
      ensures trace.calls == old(trace.calls) + [SpanErrorCalled(spanId, "Max turns exceeded", VMap(map["max_turns" := VInt(maxTurns)]))]
    {
      var _, typeError := trace.AddErrorToSpan(spanId, "Max turns exceeded", VMap(map["max_turns" := VInt(maxTurns)]));
      assert !typeError;
    }

    /** Finishing the newest span of the log, the one still open. */
    method LeaveSpan(spanId: string, ghost base: seq<TraceCall>, ghost names: seq<string>, ghost ids: seq<string>,
                     ghost m: map<Agent, AgentState>)
      requires trace.Ready() && Unmoved(m) && |names| == |ids| > 0 && spanId == ids[|ids| - 1]
      requires trace.calls == base + OpenLog(names, ids, true)
      modifies trace`spans, trace`currentSpan, trace`clockReads, trace`notifications, trace`calls
      ensures trace.Ready() && Unmoved(m)
      ensures trace.calls == base + OpenLog(names, ids, false)
    {
      CloseSpanLog(base, names, ids);
      CloseSpan(spanId);
    }

    method CloseSpan(spanId: string)
      requires trace.Ready()
      modifies trace`spans, trace`currentSpan, trace`clockReads, trace`notifications, trace`calls
      ensures trace.Ready()
      ensures trace.calls == old(trace.calls) + [SpanFinishCalled(spanId)]
    {
      var _, typeError := trace.FinishSpan(spanId);
      assert !typeError;
    }

    method FinishTrace()
      requires trace.Ready()
      modifies trace`endTime, trace`clockReads, trace`notifications, trace`calls
      ensures trace.Ready()
      ensures trace.calls == old(trace.calls) + [FinishCalled]
    {
      var _, typeError := trace.Finish();
      assert !typeError;
    }
  }

  /** What one call of `run` produced: its result, parameters, the agents' fields, and its turns and spans. */
  datatype RunRecord = RunRecord(run: Result<RunResult, RunError>, p: RunParams, m: map<Agent, AgentState>,
                              turns: seq<Turn>, names: seq<string>, ids: seq<string>)

  /**
   * The call of `run` a pending `wait` makes: on `runner`, with this agent,
   * input, context value, limit and configuration, and what it produced.
   */
  ghost predicate RanWith(made: RunRecord, runner: Runner, agent: Agent, input: RunInput, context: Value, maxTurns: int,
                          config: ConfigState)
  {
    var RunRecord(run, p, m, turns, names, ids) := made;
    p == RunParams(agent, input, context, config, runner.modelProvider, runner.app.defaultModel, runner.env) &&
    Consistent(p, m, Bound(maxTurns), turns, names, ids, true) && Outcome(p, m, maxTurns, turns, run)
  }

  /** A callable handed to `stream`, known by its identity. */
  datatype Handler = Handler(id: nat)

  /**
   * `Result\RunResultStreaming`: the state of a run started by
   * `runStreamed`. `stream` leaves it as it is; `wait` runs the agent loop
   * once, when the run is not complete and the runner, the context wrapper
   * and the configuration are all set, and copies that run's items,
   * responses, output and guardrail results. The streaming buffer the class
   * declares is never read or written, so it is not a field here.
   */
  class RunResultStreaming {
    var input: RunInput
    var newItems: seq<RunItem>
    var currentAgent: Agent
    var rawResponses: seq<ModelResponse>
    var finalOutput: Value
    var isComplete: bool
    var currentTurn: int
    var maxTurns: int
    var inputGuardrailResults: seq<InputGuardrailResult>
    var outputGuardrailResults: seq<OutputGuardrailResult>
    var runner: Runner?
    var context: RunContext?
    var runConfig: RunConfig?

    /** `new RunResultStreaming(...)`: the ten arguments as given; runner, context and configuration unset. */
    constructor(input: RunInput, newItems: seq<RunItem>, currentAgent: Agent, rawResponses: seq<ModelResponse>,
                finalOutput: Value, isComplete: bool, currentTurn: int, maxTurns: int,
                inputGuardrailResults: seq<InputGuardrailResult>, outputGuardrailResults: seq<OutputGuardrailResult>)
      ensures this.input == input && this.newItems == newItems && this.currentAgent == currentAgent
      ensures this.rawResponses == rawResponses && this.finalOutput == finalOutput && this.isComplete == isComplete
      ensures this.currentTurn == currentTurn && this.maxTurns == maxTurns
      ensures this.inputGuardrailResults == inputGuardrailResults && this.outputGuardrailResults == outputGuardrailResults
      ensures runner == null && context == null && runConfig == null
    {
      this.input := input;
      this.newItems := newItems;
      this.currentAgent := currentAgent;
      this.rawResponses := rawResponses;
      this.finalOutput := finalOutput;
      this.isComplete := isComplete;
      this.currentTurn := currentTurn;
      this.maxTurns := maxTurns;
      this.inputGuardrailResults := inputGuardrailResults;
      this.outputGuardrailResults := outputGuardrailResults;
      runner := null;
      context := null;
      runConfig := null;
    }

    /** `setRunner($runner)`: returns this result. */
    method SetRunner(runner: Runner) returns (r: RunResultStreaming)
      modifies this`runner
      ensures r == this && this.runner == runner
    {
      this.runner := runner;
      r := this;
    }

    /** `setContext($context)`: returns this result. */
    method SetContext(context: RunContext) returns (r: RunResultStreaming)
      modifies this`context
      ensures r == this && this.context == context
    {
      this.context := context;
      r := this;
    }

    /** `setRunConfig($runConfig)`: returns this result. */
    method SetRunConfig(runConfig: RunConfig) returns (r: RunResultStreaming)
      modifies this`runConfig
      ensures r == this && this.runConfig == runConfig
    {
      this.runConfig := runConfig;
      r := this;
    }

    /** `stream($onToken, ...)`: the callbacks are neither stored nor called; the result itself is returned, unchanged. */
    method Stream(onToken: Handler, onToolCall: Option<Handler>, onToolCallResult: Option<Handler>,
                  onAgentChange: Option<Handler>, onComplete: Option<Handler>) returns (r: RunResultStreaming)
      ensures r == this
    {
      r := this;
    }

    /** Whether `wait` runs the agent loop. */
    predicate Pending()
      reads this
    {
      !isComplete && runner != null && context != null && runConfig != null
    }

    /**
     * `wait()`: when pending, `run` is called with the current agent, the
     * input, the wrapper's context value, the limit and the configuration,
     * and this result takes that run's items, responses, output and
     * guardrail results and becomes complete; an exception of `run` leaves
     * it as it was. The `RunResult` returned is built from this result's
     * fields, so its input and last agent are the stored ones, not the
     * run's. `made` records that call of `run`, when there was one.
     */
    method Wait() returns (r: Result<RunResult, RunError>, ghost made: Option<RunRecord>)
      requires runner != null ==> runner.trace.Valid()
      modifies this`newItems, this`rawResponses, this`finalOutput, this`isComplete
      modifies this`inputGuardrailResults, this`outputGuardrailResults
      modifies if runner != null then {runner.trace} else {}
      ensures runner != null ==> runner.trace.Valid()
      ensures !old(Pending()) ==> made.None? && unchanged(this) && r == Success(Snapshot())
      ensures old(Pending()) ==>
        made.Some? && Unmoved(made.value.m) &&
        RanWith(made.value, runner, currentAgent, input, old(context.context), maxTurns, old(runConfig.State()))
      ensures old(Pending()) && made.value.run.Success? ==> isComplete && Holds(made.value.run.value) && r == Success(Snapshot())
      ensures old(Pending()) && made.value.run.Failure? ==> unchanged(this) && r == made.value.run
    {
      if Pending() {
        var result;
        result, made := runner.RunFor(currentAgent, input, context.context, maxTurns, runConfig);
        if result.Failure? {
          return result, made;
        }
        Absorb(result.value, made.value.m);
      } else {
        made := None;
      }
      r := Success(Snapshot());
    }

    /** This result holds a run's items, responses, final output and guardrail results. */
    predicate Holds(result: RunResult)
      reads this
    {
      newItems == result.newItems && rawResponses == result.rawResponses && finalOutput == result.finalOutput &&
      inputGuardrailResults == result.inputGuardrailResults && outputGuardrailResults == result.outputGuardrailResults
    }

    /** The fields `wait` takes from a successful run; the agents stay as they are. */
    method Absorb(result: RunResult, ghost m: map<Agent, AgentState>)
      requires Unmoved(m)
      modifies this`newItems, this`rawResponses, this`finalOutput, this`isComplete
      modifies this`inputGuardrailResults, this`outputGuardrailResults
      ensures Unmoved(m)
      ensures isComplete && Holds(result)
    {
      newItems := result.newItems;
      rawResponses := result.rawResponses;
      finalOutput := result.finalOutput;
      inputGuardrailResults := result.inputGuardrailResults;
      outputGuardrailResults := result.outputGuardrailResults;
      isComplete := true;
    }

    /** The `RunResult` `wait` builds from this result's fields. */
    function Snapshot(): RunResult
      reads this
    {
      RunResult(input, newItems, rawResponses, finalOutput, currentAgent, inputGuardrailResults, outputGuardrailResults)
    }
  }
}
