/** The plugin side of the VST2 adapter (`Vst2` in src/formats/vst2.rs):
    the Suspended/Resumed life cycle, the per-block `process`, and the
    parameter and IO descriptions read from the plugin. Calls into the
    plugin instance are recorded in a log. */
module Vst2Plugin {
  import opened Common
  import opened Events
  import opened Transport
  import opened Vst2Midi
  import opened Vst2Callbacks

  /** Unicode White_Space, the characters `str::trim` removes. */
  predicate IsWhitespace(c: char) {
    || ('\U{0009}' <= c <= '\U{000D}') || c == '\U{0020}' || c == '\U{0085}' || c == '\U{00A0}'
    || c == '\U{1680}' || ('\U{2000}' <= c <= '\U{200A}') || c == '\U{2028}' || c == '\U{2029}'
    || c == '\U{202F}' || c == '\U{205F}' || c == '\U{3000}'
  }

  /** `trim_start`: the longest suffix that does not begin with white space. */
  function TrimStart(s: string): (r: string)
    ensures |r| <= |s| && r == s[|s| - |r|..]
    ensures forall i :: 0 <= i < |s| - |r| ==> IsWhitespace(s[i])
    ensures r == [] || !IsWhitespace(r[0])
  {
    if s == [] || !IsWhitespace(s[0]) then s else TrimStart(s[1..])
  }

  /** `trim_end`: the longest prefix that does not end with white space. */
  function TrimEnd(s: string): (r: string)
    ensures |r| <= |s| && r == s[..|r|]
    ensures forall i :: |r| <= i < |s| ==> IsWhitespace(s[i])
    ensures r == [] || !IsWhitespace(Last(r))
  {
    if s == [] || !IsWhitespace(Last(s)) then s else TrimEnd(s[..|s| - 1])
  }

  function Trim(s: string): string {
    TrimEnd(TrimStart(s))
  }

  predicate Trimmed(s: string) {
    s == [] || (!IsWhitespace(s[0]) && !IsWhitespace(Last(s)))
  }

  lemma TrimIsTrimmed(s: string)
    ensures Trimmed(Trim(s))
  {
    var t := TrimStart(s);
    var r := TrimEnd(t);
    if r != [] {
      assert r[0] == t[0];
    }
  }

  lemma TrimKeepsTrimmed(s: string)
    requires Trimmed(s)
    ensures Trim(s) == s
  {
  }

  /** The text shown for a parameter value: its text and its unit label,
      each trimmed, joined by a space, and trimmed again. */
  function FormattedValue(text: string, unitLabel: string): string {
    Trim(Trim(text) + " " + Trim(unitLabel))
  }

  lemma JoinBoth(a: string, b: string)
    requires Trimmed(a) && Trimmed(b) && a != [] && b != []
    ensures Trim(a + " " + b) == a + " " + b
  {
    var x := a + " " + b;
    assert x[0] == a[0] && Last(x) == Last(b);
    TrimKeepsTrimmed(x);
  }

  lemma JoinNoLabel(a: string)
    requires Trimmed(a)
    ensures Trim(a + " " + []) == a
  {
    var x := a + " " + [];
    assert x == a + [' '];
    if a == [] {
      assert TrimStart(x) == TrimStart(x[1..]);
    } else {
      assert x[0] == a[0];
      assert TrimStart(x) == x;
      assert x[..|x| - 1] == a;
      assert TrimEnd(x) == TrimEnd(a);
    }
  }

  lemma JoinNoText(b: string)
    requires Trimmed(b)
    ensures Trim([] + " " + b) == b
  {
    var x := [] + " " + b;
    assert x == [' '] + b;
    assert x[1..] == b;
    assert IsWhitespace(x[0]);
    assert TrimStart(x) == TrimStart(b);
    assert TrimStart(b) == b;
    assert TrimEnd(b) == b;
  }

  /** The formatted value is trimmed; it is "text label" when both parts are
      present and the one present part otherwise, with no stray space. */
  lemma FormattedValueShape(text: string, unitLabel: string)
    ensures Trimmed(FormattedValue(text, unitLabel))
    ensures Trim(text) != [] && Trim(unitLabel) != [] ==> FormattedValue(text, unitLabel) == Trim(text) + " " + Trim(unitLabel)
    ensures Trim(unitLabel) == [] ==> FormattedValue(text, unitLabel) == Trim(text)
    ensures Trim(text) == [] ==> FormattedValue(text, unitLabel) == Trim(unitLabel)
  {
    var a, b := Trim(text), Trim(unitLabel);
    TrimIsTrimmed(text);
    TrimIsTrimmed(unitLabel);
    TrimIsTrimmed(a + " " + b);
    if a != [] && b != [] {
      JoinBoth(a, b);
    } else if b == [] {
      JoinNoLabel(a);
    } else {
      JoinNoText(b);
    }
  }

  /** What the plugin reports for parameter `id`: its value, name, value
      text and unit label. */
  datatype ParameterReadout = ParameterReadout(value: Value, name: string, text: string, unitLabel: string)

  /** `get_parameter`: the index reported is the id itself. */
  function GetParameter(id: int, readout: ParameterReadout): (r: ParameterDescriptor)
    ensures r.id == id && r.index == id
    ensures r.value == readout.value && r.name == readout.name
    ensures r.formattedValue == FormattedValue(readout.text, readout.unitLabel)
  {
    ParameterDescriptor(id, readout.name, id, readout.value, FormattedValue(readout.text, readout.unitLabel))
  }

  /** `get_io_configuration`: at most one bus each way, present exactly when
      the plugin reports a positive channel count, carrying that count. */
  function GetIoConfiguration(inputs: int, outputs: int): (r: IOConfiguration)
    requires -0x8000_0000 <= inputs < 0x8000_0000 && -0x8000_0000 <= outputs < 0x8000_0000
    ensures |r.audioInputs| <= 1 && |r.audioOutputs| <= 1
    ensures |r.audioInputs| == 1 <==> inputs > 0
    ensures |r.audioOutputs| == 1 <==> outputs > 0
    ensures r.audioInputs != [] ==> r.audioInputs[0].channels == inputs
    ensures r.audioOutputs != [] ==> r.audioOutputs[0].channels == outputs
  {
    IOConfiguration(
      if inputs > 0 then [AudioBusDescriptor(AsUsize(inputs))] else [],
      if outputs > 0 then [AudioBusDescriptor(AsUsize(outputs))] else [])
  }

  datatype Vst2State = Suspended | Resumed

  /** Calls made on the plugin instance. */
  datatype InstanceCall =
    | StopProcess
    | SuspendPlugin
    | ResumePlugin
    | StartProcess
    | SetSampleRate(rate: int)
    | SetBlockSize(size: int)
    | SetParameter(index: int, value: Value)
    | ProcessEvents(block: Vst2Events)
      /** `process` on the audio buffer bound to the given input and output
          bus of the host's lists; None is the empty buffer. */
    | ProcessAudio(input: Option<nat>, output: Option<nat>)

  /** The bus `process` hands to the plugin out of a list of `count` buses:
      the first one, or the empty buffer when there is none. */
  function FirstBus(count: nat): (r: Option<nat>)
    ensures r.Some? <==> count > 0
    ensures r.Some? ==> r.value == 0
  {
    if count > 0 then Some(0) else None
  }

  /** The calls `suspend` makes in state `s`. */
  function SuspendCalls(s: Vst2State): seq<InstanceCall> {
    if s == Suspended then [] else [StopProcess, SuspendPlugin]
  }

  /** The calls `resume` makes in state `s`. */
  function ResumeCalls(s: Vst2State): seq<InstanceCall> {
    if s == Resumed then [] else [ResumePlugin, StartProcess]
  }

  /** One full cycle of the life cycle, starting from Suspended. */
  const LifeCycle: seq<InstanceCall> := [ResumePlugin, StartProcess, StopProcess, SuspendPlugin]

  /** The state and calls after a series of `resume` (true) and `suspend`
      (false) requests. */
  function Lifecycle(s: Vst2State, requests: seq<bool>): (Vst2State, seq<InstanceCall>) {
    if requests == [] then (s, [])
    else
      var before := Lifecycle(s, requests[..|requests| - 1]);
      if Last(requests) then (Resumed, before.1 + ResumeCalls(before.0))
      else (Suspended, before.1 + SuspendCalls(before.0))
  }

  /** However the host interleaves `suspend` and `resume`, a plugin that
      starts suspended sees resume, start, stop, suspend, resume, ... and
      never two transitions in the same direction. */
  lemma {:induction false} LifecycleAlternates(requests: seq<bool>)
    ensures var (s, calls) := Lifecycle(Suspended, requests);
      && (s == Suspended ==> |calls| % 4 == 0)
      && (s == Resumed ==> |calls| % 4 == 2)
      && forall i :: 0 <= i < |calls| ==> calls[i] == LifeCycle[i % 4]
  {
    if requests != [] {
      LifecycleAlternates(requests[..|requests| - 1]);
    }
  }

  /** `Vst2`. */
  class Vst2 {
    var state: Vst2State
    /** Calls on `plugin_instance`, oldest first. */
    var calls: seq<InstanceCall>
    /** `process_details`, shared with the host callbacks. */
    const processDetails: DetailsCell

    /** A freshly loaded plugin starts suspended. */
    constructor (processDetails: DetailsCell)
      ensures state == Suspended && calls == [] && this.processDetails == processDetails
    {
      state := Suspended;
      calls := [];
      this.processDetails := processDetails;
    }

    method Suspend()
      modifies this
      ensures state == Suspended
      ensures calls == old(calls) + SuspendCalls(old(state))
    {
      if state == Suspended {
        return;
      }
      calls := calls + [StopProcess, SuspendPlugin];
      state := Suspended;
    }

    method Resume()
      modifies this
      ensures state == Resumed
      ensures calls == old(calls) + ResumeCalls(old(state))
    {
      if state == Resumed {
        return;
      }
      calls := calls + [ResumePlugin, StartProcess];
      state := Resumed;
    }

    /** `change_sample_rate`: suspends first. The rate is passed as a
        float; the model keeps the integer. */
    method ChangeSampleRate(rate: nat)
      modifies this
      ensures state == Suspended
      ensures calls == old(calls) + SuspendCalls(old(state)) + [SetSampleRate(rate)]
    {
      Suspend();
      calls := calls + [SetSampleRate(rate)];
    }

    /** `change_block_size`: suspends first, then passes the size as `i64`. */
    method ChangeBlockSize(size: nat)
      modifies this
      ensures state == Suspended
      ensures calls == old(calls) + SuspendCalls(old(state)) + [SetBlockSize(AsI64(size))]
    {
      Suspend();
      calls := calls + [SetBlockSize(AsI64(size))];
    }

    /** `process`: publishes the transport to the host callbacks, sets every
        parameter event on the plugin in order, hands over the MIDI events
        and processes audio on the first input and first output bus, of
        the `inputBuses` and `outputBuses` the host passes; later buses are
        ignored. Returns true for the panic on more than 100 MIDI events,
        after which nothing more is called. */
    method Process(events: seq<HostEvent>, details: ProcessDetails, inputBuses: nat, outputBuses: nat)
      returns (panicked: bool)
      modifies this, processDetails
      ensures processDetails.value == details && state == old(state)
      ensures panicked <==> |Filter(events, IsMidi)| > MAX_EVENTS
      ensures panicked ==> calls == old(calls) + ParameterCalls(events)
      ensures !panicked ==> |Vst2EventList(events)| <= MAX_EVENTS
      ensures !panicked ==>
        calls == old(calls) + ParameterCalls(events)
          + [ProcessEvents(EventsBlock(Vst2EventList(events))), ProcessAudio(FirstBus(inputBuses), FirstBus(outputBuses))]
    {
      processDetails.value := details;
      SetParameters(events);
      var block := ProcessVst2MidiEventsList(events);
      if block.None? {
        return true;
      }
      calls := calls + [ProcessEvents(block.value), ProcessAudio(FirstBus(inputBuses), FirstBus(outputBuses))];
      return false;
    }

    /** The loop over the parameter events in `process`. */
    method SetParameters(events: seq<HostEvent>)
      modifies this
      ensures state == old(state)
      ensures calls == old(calls) + ParameterCalls(events)
    {
      for i := 0 to |events|
        invariant state == old(state)
        invariant calls == old(calls) + ParameterCalls(events[..i])
      {
        ParameterCallsSnoc(events[..i], events[i]);
        assert events[..i + 1] == events[..i] + [events[i]];
        var e := events[i];
        var added := if e.eventType.Parameter? then [SetParameter(e.eventType.param.parameterId, e.eventType.param.currentValue)] else [];
        calls := calls + added;
      }
      assert events[..|events|] == events;
    }
  }

  /** The `set_parameter` calls for the parameter events, in input order. */
  function ParameterCalls(events: seq<HostEvent>): (r: seq<InstanceCall>)
    ensures |r| <= |events|
  {
    if events == [] then []
    else
      var e := Last(events);
      ParameterCalls(events[..|events| - 1])
        + if e.eventType.Parameter? then [SetParameter(e.eventType.param.parameterId, e.eventType.param.currentValue)] else []
  }

  lemma ParameterCallsSnoc(s: seq<HostEvent>, e: HostEvent)
    ensures ParameterCalls(s + [e]) == ParameterCalls(s)
      + if e.eventType.Parameter? then [SetParameter(e.eventType.param.parameterId, e.eventType.param.currentValue)] else []
  {
    assert (s + [e])[..|s + [e]| - 1] == s;
  }

  /** One `set_parameter` call per parameter event, in the order the host
      gave them, carrying that event's id and value. */
  lemma {:induction false} ParameterCallsMatchEvents(events: seq<HostEvent>)
    ensures |ParameterCalls(events)| == |Filter(events, IsParameter)|
    ensures forall i :: 0 <= i < |ParameterCalls(events)| ==>
      var e := Filter(events, IsParameter)[i];
      e.eventType.Parameter? && ParameterCalls(events)[i] == SetParameter(e.eventType.param.parameterId, e.eventType.param.currentValue)
  {
    if events != [] {
      var init, e := events[..|events| - 1], Last(events);
      assert events == init + [e];
      ParameterCallsMatchEvents(init);
      ParameterCallsSnoc(init, e);
      FilterSnoc(init, e, IsParameter);
    }
  }
}
