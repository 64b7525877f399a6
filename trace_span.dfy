/**
 * One span of a trace (`Tracing\TraceSpan`): identity, name, type, start
 * time and attributes fixed at construction; an end time and an error list
 * that change in place.
 */
module Spans {
  import opened Values

  /** One `['message' => ..., 'data' => ...]` entry of a span's error list. */
  datatype SpanError = SpanError(message: string, data: Value)

  /** What a span holds at one moment, as a value (what a processor is handed). */
  datatype SpanSnapshot = SpanSnapshot(
    id: string,
    name: string,
    spanType: string,
    startTime: int,
    endTime: Option<int>,
    attributes: Value,
    errors: seq<SpanError>)

  /** `addError($message, $data)` on a span's state: one entry at the end of the error list. */
  function WithError(s: SpanSnapshot, message: string, data: Value): (r: SpanSnapshot)
    ensures r.errors == s.errors + [SpanError(message, data)]
    ensures r.(errors := s.errors) == s
  {
    s.(errors := s.errors + [SpanError(message, data)])
  }

  /** `finish($endTime)` on a span's state: the end time is recorded, or overwritten. */
  function Finished(s: SpanSnapshot, endTime: int): (r: SpanSnapshot)
    ensures r.endTime == Some(endTime)
    ensures r.(endTime := s.endTime) == s
  {
    s.(endTime := Some(endTime))
  }

  class TraceSpan {
    const id: string
    const name: string
    const spanType: string
    const startTime: int
    const attributes: Value
    var endTime: Option<int>
    var errors: seq<SpanError>

    function Snapshot(): SpanSnapshot
      reads this
    {
      SpanSnapshot(id, name, spanType, startTime, endTime, attributes, errors)
    }

    /** `new TraceSpan($id, $name, $type, $startTime, $attributes)`: not finished, no errors. */
    constructor(id: string, name: string, spanType: string, startTime: int, attributes: Value)
      ensures Snapshot() == SpanSnapshot(id, name, spanType, startTime, None, attributes, [])
    {
      this.id := id;
      this.name := name;
      this.spanType := spanType;
      this.startTime := startTime;
      this.attributes := attributes;
      endTime := None;
      errors := [];
    }

    /** `addError($message, $data)`: one entry at the end of the list; nothing else changes. */
    method AddError(message: string, data: Value) returns (r: TraceSpan)
      modifies this
      ensures r == this
      ensures Snapshot() == WithError(old(Snapshot()), message, data)
    {
      errors := errors + [SpanError(message, data)];
      r := this;
    }

    /** `finish($endTime)`: records (or overwrites) the end time; afterwards the duration is known. */
    method Finish(endTime: int) returns (r: TraceSpan)
      modifies this
      ensures r == this
      ensures Snapshot() == Finished(old(Snapshot()), endTime)
      ensures GetDuration() == Some(endTime - startTime)
    {
      this.endTime := Some(endTime);
      r := this;
    }

    /** `getDuration()`: null while unfinished, else the time from start to end. */
    function GetDuration(): (d: Option<int>)
      reads this
      ensures d.None? <==> endTime.None?
      ensures d.Some? ==> startTime + d.value == endTime.value
    {
      match endTime
      case None => None
      case Some(t) => Some(t - startTime)
    }
  }
}
