/**
 * A run's trace (`Tracing\Trace`): a disabled flag, the trace identity, a map
 * of spans keyed by span id, the current span and a list of processors that
 * are told about every step. The spans are held as their states: no span
 * object leaves the trace, so each update is a change of the entry filed
 * under its id. The clock and the uuid generator are supplied
 * as functions of how often each has been consulted; what the processors
 * are told is kept as an appended list of notifications.
 */
module Tracing {
  import opened Values
  import opened Spans

  /** A trace processor object, by identity. */
  datatype Processor = Processor(id: nat)

  /** The processor every trace starts with (`LogProcessor`). */
  const LogProcessor := Processor(0)

  /** The processor callbacks of `TraceProcessorInterface`, with their arguments. */
  datatype TraceEvent =
    | TraceStarted(traceId: string, workflowName: string, groupId: Option<string>, metadata: Option<Value>)
    | SpanStarted(spanTraceId: string, span: SpanSnapshot)
    | SpanErrored(spanTraceId: string, span: SpanSnapshot, message: string, data: Value)
    | SpanEnded(spanTraceId: string, span: SpanSnapshot)
    | TraceEnded(endTraceId: string, spans: map<string, SpanSnapshot>, duration: int)

  datatype Notification = Notification(processor: Processor, event: TraceEvent)

  /** One notification per processor, in processor order. */
  function Broadcast(ps: seq<Processor>, e: TraceEvent): seq<Notification>
    decreases |ps|
  {
    if |ps| == 0 then [] else Broadcast(ps[..|ps| - 1], e) + [Notification(ps[|ps| - 1], e)]
  }

  lemma {:induction false} BroadcastEach(ps: seq<Processor>, e: TraceEvent)
    ensures |Broadcast(ps, e)| == |ps|
    ensures forall i :: 0 <= i < |ps| ==> Broadcast(ps, e)[i] == Notification(ps[i], e)
    decreases |ps|
  {
    if |ps| > 0 {
      BroadcastEach(ps[..|ps| - 1], e);
    }
  }

  /**
   * The public calls made on a trace, with their arguments and, for
   * `startAgentSpan`, the id it returned. Kept as ghost state so that the
   * runner's use of the trace can be stated.
   */
  datatype TraceCall =
    | StartCalled(workflowName: string, traceId: Option<string>, groupId: Option<string>, metadata: Option<Value>)
    | SpanStartCalled(agentName: string, spanId: string)
    | SpanErrorCalled(spanId: string, message: string, data: Value)
    | SpanFinishCalled(spanId: string)
    | FinishCalled

  /**
   * `Str::uuid()` never repeats itself: each id it hands out tells which call
   * produced it.
   */
  ghost predicate Unique(uuid: nat -> string, callOf: string -> int) {
    forall i: nat :: callOf(uuid(i)) == i
  }

  /** Filing a span under a new id adds exactly one entry. */
  lemma SpanFiled(spans: map<string, SpanSnapshot>, id: string, span: SpanSnapshot)
    requires id !in spans
    ensures |spans[id := span]| == |spans| + 1
  {
    assert spans[id := span].Keys == spans.Keys + {id};
  }

  class Trace {
    var disabled: bool
    var traceId: Option<string>
    var groupId: Option<string>
    var workflowName: Option<string>
    var metadata: Option<Value>
    var startTime: Option<int>
    var endTime: Option<int>
    var spans: map<string, SpanSnapshot>
    /** The id of the current span. */
    var currentSpan: Option<string>
    const processors: seq<Processor>
    /** Everything the processors have been told, in order. */
    var notifications: seq<Notification>
    /** The microsecond clock, by reading number. */
    const clock: nat -> int
    /** The uuid generator, by call number. */
    const uuid: nat -> string
    /** Which call of the generator produced an id. */
    ghost const callOf: string -> int
    var clockReads: nat
    var uuidsIssued: nat
    ghost var calls: seq<TraceCall>

    /**
     * Every span is filed under its own id, every id came from the generator,
     * and the current span is one of them; the log processor is the only
     * processor, and a trace with an id has its start time (`start` sets both).
     */
    ghost predicate Valid()
      reads this`spans, this`currentSpan, this`uuidsIssued, this`traceId, this`startTime
    {
      Unique(uuid, callOf) && processors == [LogProcessor]
      && (traceId.Some? ==> startTime.Some?)
      && (forall k :: k in spans ==> spans[k].id == k && 0 <= callOf(k) < uuidsIssued)
      && (currentSpan.Some? ==> currentSpan.value in spans)
    }

    /** A valid trace that is disabled or has its id: none of its span operations fails. */
    ghost predicate Ready()
      reads this`spans, this`currentSpan, this`uuidsIssued, this`traceId, this`startTime, this`disabled
    {
      Valid() && (disabled || traceId.Some?)
    }

    /** `new Trace()`: enabled, nothing recorded, the log processor attached. */
    constructor(clock: nat -> int, uuid: nat -> string, ghost callOf: string -> int)
      requires Unique(uuid, callOf)
      ensures Valid()
      ensures !disabled && traceId == None && groupId == None && workflowName == None && metadata == None
      ensures startTime == None && endTime == None && spans == map[] && currentSpan == None
      ensures processors == [LogProcessor] && notifications == [] && clockReads == 0 && uuidsIssued == 0
      ensures this.clock == clock && this.uuid == uuid && calls == []
    {
      disabled := false;
      traceId := None;
      groupId := None;
      workflowName := None;
      metadata := None;
      startTime := None;
      endTime := None;
      spans := map[];
      currentSpan := None;
      processors := [LogProcessor];
      notifications := [];
      this.clock := clock;
      this.uuid := uuid;
      this.callOf := callOf;
      clockReads := 0;
      uuidsIssued := 0;
      calls := [];
    }

    /** `getCurrentTimeMicro()`: one reading of the clock. */
    method ReadClock() returns (t: int)
      modifies this`clockReads
      ensures t == clock(old(clockReads)) && clockReads == old(clockReads) + 1
    {
      t := clock(clockReads);
      clockReads := clockReads + 1;
    }

    /** `Str::uuid()`: one draw of the generator, never an id a span is filed under. */
    method NewUuid() returns (id: string)
      requires Valid()
      modifies this`uuidsIssued
      ensures Valid()
      ensures id == uuid(old(uuidsIssued)) && id !in spans && uuidsIssued == old(uuidsIssued) + 1
    {
      id := uuid(uuidsIssued);
      assert callOf(id) == uuidsIssued;
      uuidsIssued := uuidsIssued + 1;
    }

    /** The `foreach ($this->processors as $processor)` loop: every processor is told, once, in order. */
    method Notify(e: TraceEvent)
      modifies this`notifications
      ensures notifications == old(notifications) + Broadcast(processors, e)
    {
      var i := 0;
      while i < |processors|
        invariant 0 <= i <= |processors|
        invariant notifications == old(notifications) + Broadcast(processors[..i], e)
      {
        assert processors[..i + 1][..i] == processors[..i];
        notifications := notifications + [Notification(processors[i], e)];
        i := i + 1;
      }
      assert processors[..|processors|] == processors;
    }

    /** The assignments of `start`: who the trace is for and when it began. */
    method Identify(workflowName: string, id: string, groupId: Option<string>, metadata: Option<Value>, t: int)
      modifies this`workflowName, this`traceId, this`groupId, this`metadata, this`startTime
      ensures this.workflowName == Some(workflowName) && traceId == Some(id) && this.groupId == groupId
      ensures this.metadata == metadata && startTime == Some(t)
    {
      this.workflowName := Some(workflowName);
      traceId := Some(id);
      this.groupId := groupId;
      this.metadata := metadata;
      startTime := Some(t);
    }

    /** Files a span under its id and makes it current. */
    method File(span: SpanSnapshot)
      requires Valid() && span.id !in spans && 0 <= callOf(span.id) < uuidsIssued
      modifies this`spans, this`currentSpan
      ensures Valid()
      ensures spans == old(spans)[span.id := span] && currentSpan == Some(span.id)
    {
      spans := spans[span.id := span];
      currentSpan := Some(span.id);
    }

    /** Replaces the state of a filed span. */
    method Refile(span: SpanSnapshot)
      requires Valid() && span.id in spans
      modifies this`spans
      ensures Valid() && spans == old(spans)[span.id := span]
    {
      spans := spans[span.id := span];
    }

    /** No span is current any more. */
    method ClearCurrent()
      requires Valid()
      modifies this`currentSpan
      ensures Valid() && currentSpan == None
    {
      currentSpan := None;
    }

    /**
     * `start($workflowName, $traceId, $groupId, $metadata)`: records the
     * trace identity (a fresh uuid when no id is given) and the start time,
     * then tells the processors. A disabled trace changes nothing.
     */
    method Start(workflowName: string, traceId: Option<string>, groupId: Option<string>, metadata: Option<Value>) returns (r: Trace)
      requires Valid()
      modifies this`traceId, this`groupId, this`workflowName, this`metadata, this`startTime
      modifies this`clockReads, this`uuidsIssued, this`notifications, this`calls
      ensures Valid() && r == this
      ensures calls == old(calls) + [StartCalled(workflowName, traceId, groupId, metadata)]
      ensures old(disabled) ==>
        unchanged(this`traceId, this`groupId, this`workflowName, this`metadata, this`startTime, this`clockReads, this`uuidsIssued, this`notifications)
      ensures !old(disabled) ==>
        var id := traceId.GetOr(uuid(old(uuidsIssued)));
        this.traceId == Some(id) && this.groupId == groupId && this.workflowName == Some(workflowName) && this.metadata == metadata
        && startTime == Some(clock(old(clockReads))) && clockReads == old(clockReads) + 1
        && uuidsIssued == old(uuidsIssued) + (if traceId.Some? then 0 else 1)
        && notifications == old(notifications) + Broadcast(processors, TraceStarted(id, workflowName, groupId, metadata))
    {
      calls := calls + [StartCalled(workflowName, traceId, groupId, metadata)];
      r := this;
      if disabled {
        return;
      }
      var id: string;
      if traceId.Some? {
        id := traceId.value;
      } else {
        id := NewUuid();
      }
      var t := ReadClock();
      Identify(workflowName, id, groupId, metadata, t);
      Notify(TraceStarted(id, workflowName, groupId, metadata));
    }

    /**
     * `startAgentSpan($name, $handoffs, $tools, $outputType)`: files a new
     * `agent` span under a fresh id, makes it current, tells the processors
     * and returns the id. A disabled trace returns "" and changes nothing.
     * An enabled trace that was never started has a null id, which the log
     * processor's `string` parameter refuses: `typeError` is that failure,
     * raised once the span is filed and current and before anyone is told.
     */
    method StartAgentSpan(name: string, handoffs: seq<string>, tools: seq<string>, outputType: string)
      returns (spanId: string, typeError: bool)
      requires Valid()
      modifies this`spans, this`currentSpan, this`clockReads, this`uuidsIssued, this`notifications, this`calls
      ensures Valid()
      ensures calls == old(calls) + [SpanStartCalled(name, spanId)]
      ensures typeError <==> !old(disabled) && traceId.None?
      ensures old(disabled) ==>
        spanId == "" && unchanged(this`spans, this`currentSpan, this`clockReads, this`uuidsIssued, this`notifications)
      ensures !old(disabled) ==>
        var s := SpanSnapshot(uuid(old(uuidsIssued)), name, "agent", clock(old(clockReads)), None, SpanAttributes(handoffs, tools, outputType), []);
        spanId == s.id && spanId !in old(spans) && spans == old(spans)[spanId := s] && currentSpan == Some(spanId)
        && uuidsIssued == old(uuidsIssued) + 1 && clockReads == old(clockReads) + 1
        && notifications == old(notifications) + (if typeError then [] else Broadcast(processors, SpanStarted(traceId.value, s)))
    {
      if disabled {
        calls := calls + [SpanStartCalled(name, "")];
        return "", false;
      }
      spanId := NewUuid();
      calls := calls + [SpanStartCalled(name, spanId)];
      var t := ReadClock();
      var span := SpanSnapshot(spanId, name, "agent", t, None, SpanAttributes(handoffs, tools, outputType), []);
      File(span);
      typeError := traceId.None?;
      if !typeError {
        Notify(SpanStarted(traceId.value, span));
      }
    }

    /**
     * `addErrorToSpan($spanId, $message, $data)`: appends the error to the
     * span filed under the id and tells the processors; a disabled trace or
     * an unknown id changes nothing. Never started, the trace records the
     * error and then fails with `typeError` before anyone is told.
     */
    method AddErrorToSpan(spanId: string, message: string, data: Value) returns (r: Trace, typeError: bool)
      requires Valid()
      modifies this`spans, this`notifications, this`calls
      ensures Valid() && r == this
      ensures calls == old(calls) + [SpanErrorCalled(spanId, message, data)]
      ensures typeError <==> !old(disabled) && spanId in old(spans) && traceId.None?
      ensures old(disabled) || spanId !in old(spans) ==> unchanged(this`spans, this`notifications)
      ensures !old(disabled) && spanId in old(spans) ==>
        var s := WithError(old(spans[spanId]), message, data);
        spans == old(spans)[spanId := s]
        && notifications == old(notifications) + (if typeError then [] else Broadcast(processors, SpanErrored(traceId.value, s, message, data)))
    {
      calls := calls + [SpanErrorCalled(spanId, message, data)];
      r := this;
      if disabled || spanId !in spans {
        return this, false;
      }
      var span := WithError(spans[spanId], message, data);
      Refile(span);
      typeError := traceId.None?;
      if !typeError {
        Notify(SpanErrored(traceId.value, span, message, data));
      }
    }

    /**
     * `finishSpan($spanId)`: sets the span's end time, tells the processors
     * and clears the current span. The span stays filed; finishing it again
     * overwrites its end time. A disabled trace or an unknown id changes
     * nothing. Never started, the trace sets the end time and then fails
     * with `typeError`: no one is told and the current span stays.
     */
    method FinishSpan(spanId: string) returns (r: Trace, typeError: bool)
      requires Valid()
      modifies this`spans, this`currentSpan, this`clockReads, this`notifications, this`calls
      ensures Valid() && r == this
      ensures calls == old(calls) + [SpanFinishCalled(spanId)]
      ensures typeError <==> !old(disabled) && spanId in old(spans) && traceId.None?
      ensures old(disabled) || spanId !in old(spans) ==> unchanged(this`spans, this`currentSpan, this`clockReads, this`notifications)
      ensures !old(disabled) && spanId in old(spans) ==>
        var s := Finished(old(spans[spanId]), clock(old(clockReads)));
        spans == old(spans)[spanId := s] && clockReads == old(clockReads) + 1
        && (typeError ==> currentSpan == old(currentSpan) && notifications == old(notifications))
        && (!typeError ==> currentSpan == None && notifications == old(notifications) + Broadcast(processors, SpanEnded(traceId.value, s)))
    {
      calls := calls + [SpanFinishCalled(spanId)];
      r := this;
      if disabled || spanId !in spans {
        return this, false;
      }
      var t := ReadClock();
      var span := Finished(spans[spanId], t);
      Refile(span);
      typeError := traceId.None?;
      if !typeError {
        Notify(SpanEnded(traceId.value, span));
        ClearCurrent();
      }
    }

    /**
     * `finish()`: records the end time and hands every span and the time
     * since the start to the processors. Spans are never removed. Never
     * started, the trace records the end time and then fails with
     * `typeError` before anyone is told.
     */
    method Finish() returns (r: Trace, typeError: bool)
      requires Valid()
      modifies this`endTime, this`clockReads, this`notifications, this`calls
      ensures Valid() && r == this
      ensures calls == old(calls) + [FinishCalled]
      ensures typeError <==> !old(disabled) && traceId.None?
      ensures old(disabled) ==> unchanged(this`endTime, this`clockReads, this`notifications)
      ensures !old(disabled) ==>
        var t := clock(old(clockReads));
        endTime == Some(t) && clockReads == old(clockReads) + 1
        && notifications == old(notifications) +
             (if typeError then [] else Broadcast(processors, TraceEnded(traceId.value, spans, t - startTime.value)))
    {
      calls := calls + [FinishCalled];
      r := this;
      if disabled {
        return this, false;
      }
      var t := ReadClock();
      endTime := Some(t);
      typeError := traceId.None?;
      if !typeError {
        Notify(TraceEnded(traceId.value, spans, t - startTime.value));
      }
    }

    /** `setDisabled($disabled)`: only the flag changes. */
    method SetDisabled(disabled: bool) returns (r: Trace)
      requires Valid()
      modifies this`disabled
      ensures Valid() && r == this && this.disabled == disabled
    {
      this.disabled := disabled;
      r := this;
    }
  }

  /** The attributes of an agent span. */
  function SpanAttributes(handoffs: seq<string>, tools: seq<string>, outputType: string): Value {
    VMap(map["handoffs" := Strings(handoffs), "tools" := Strings(tools), "output_type" := VStr(outputType)])
  }
}
