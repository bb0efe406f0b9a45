/** One audio block through the VST3 wrapper's `process`
    (vst3-wrapper/source/vst3wrapper.cpp): the transport is copied into the
    process context with its validity flags, MIDI events become VST3 note
    events on input event bus 0, parameter events become one point per
    parameter queue, the host's buffers are bound to the bus slots, and the
    plugin's `process` (an oracle) sees the result. */
module ProcessBridge {
  import opened Common
  import opened Events
  import opened Transport
  import opened Bindings

  /** The bits of `ProcessContext::state` the wrapper sets. */
  datatype ContextFlag =
    | TempoValid | TimeSigValid | BarPositionValid | CycleValid | SystemTimeValid
    | CycleActive | ContextPlaying | ContextRecording

  const AlwaysSet: set<ContextFlag> := {TempoValid, TimeSigValid, BarPositionValid, CycleValid, SystemTimeValid}

  /** The state bits for a block: five validity bits always, the cycle bit
      when a cycle is enabled, and the playing and recording bits. */
  function ContextFlagsFor(d: FfiProcessDetails): (flags: set<ContextFlag>)
    ensures AlwaysSet <= flags
    ensures CycleActive in flags <==> d.cycleEnabled
    ensures ContextPlaying in flags <==> IsPlaying(d.playingState)
    ensures ContextRecording in flags <==> d.playingState == Recording
  {
    AlwaysSet
      + (if d.cycleEnabled then {CycleActive} else {})
      + (if d.playingState != Stopped then {ContextPlaying} else {})
      + (if d.playingState == Recording then {ContextRecording} else {})
  }

  datatype ProcessMode = Realtime | Offline

  function ProcessModeFor(s: PlayingState): (m: ProcessMode)
    ensures m == Offline <==> s == OfflineRendering
  {
    if s == OfflineRendering then Offline else Realtime
  }

  /** The `ProcessContext` fields `process` writes. The sample position,
      computed in floating point, is not modelled. */
  datatype ProcessContext = ProcessContext(
    state: set<ContextFlag>,
    tempo: real,
    timeSigNumerator: int,
    timeSigDenominator: int,
    projectTimeMusic: real,
    cycleStartMusic: real,
    cycleEndMusic: real,
    systemTime: real,
    framesPerSecond: nat,
    frameRateFlags: nat)

  /** The process context for a block: tempo, time signature (narrowed to
      `int32`), musical position, cycle range and system time come from
      the details; the frame rate is 60 fps with no flags. */
  function ContextFor(d: FfiProcessDetails, state: set<ContextFlag>): (c: ProcessContext)
    ensures c.state == state && c.tempo == d.tempo && c.projectTimeMusic == d.playerTime
    ensures c.timeSigNumerator == AsI32(d.timeSignatureNumerator)
    ensures c.timeSigDenominator == AsI32(d.timeSignatureDenominator)
    ensures c.cycleStartMusic == d.cycleStart && c.cycleEndMusic == d.cycleEnd && c.systemTime == d.nanos
    ensures c.framesPerSecond == 60 && c.frameRateFlags == 0
  {
    ProcessContext(state, d.tempo, AsI32(d.timeSignatureNumerator), AsI32(d.timeSignatureDenominator),
      d.playerTime, d.cycleStart, d.cycleEnd, d.nanos, 60, 0)
  }

  /** The accumulation of `state |= ...` in `process`. */
  method ContextState(d: FfiProcessDetails) returns (state: set<ContextFlag>)
    ensures state == ContextFlagsFor(d)
  {
    state := {};
    state := state + {TempoValid};
    state := state + {TimeSigValid};
    state := state + {BarPositionValid};
    state := state + {CycleValid};
    state := state + {SystemTimeValid};
    if d.cycleEnabled {
      state := state + {CycleActive};
    }
    if d.playingState != Stopped {
      state := state + {ContextPlaying};
    }
    if d.playingState == Recording {
      state := state + {ContextRecording};
    }
  }

  /** The payload of a VST3 `Event`, by its `type`. */
  datatype EventBody =
    | NoteOn(channel: int, pitch: int, tuning: real, velocity: real, length: int, noteId: int)
    | NoteOff(channel: int, pitch: int, tuning: real, velocity: real, noteId: int)

  /** The payload of a zero-initialised `Event`: its `type` is 0, which is
      `kNoteOnEvent` in the VST3 SDK, and every note-on field is 0, the
      note id included. */
  const ZeroNoteOn: EventBody := NoteOn(0, 0, 0.0, 0.0, 0, 0)

  datatype Vst3Event = Vst3Event(busIndex: int, sampleOffset: int, ppqPosition: real, body: EventBody)

  predicate IsFfiMidi(e: FfiHostEvent) {
    e.eventType.FfiMidi?
  }

  /** The VST3 event for one MIDI event: on bus 0 at the event's block
      time; for status byte 0x90 a note-on and for 0x80 a note-off, on
      channel 0 with no note id (-1), carrying the key, the raw velocity
      byte and the detune. Any other status byte leaves the event as
      zero-initialised, which the plugin sees as a note-on of key 0 with
      velocity 0 and note id 0. */
  function TranslateMidi(e: FfiHostEvent): (r: Vst3Event)
    requires IsFfiMidi(e)
    ensures r.busIndex == 0 && r.sampleOffset == AsI32(e.blockTime) && r.ppqPosition == e.ppqTime
    ensures r.body.NoteOff? <==> e.eventType.midi.midiData[0] == 0x80
    ensures r.body.NoteOn? <==> e.eventType.midi.midiData[0] != 0x80
    ensures r.body.noteId == -1 <==> e.eventType.midi.midiData[0] in {0x90 as u8, 0x80}
    ensures e.eventType.midi.midiData[0] !in {0x90 as u8, 0x80} ==> r.body == ZeroNoteOn
    ensures e.eventType.midi.midiData[0] in {0x90 as u8, 0x80} ==>
      && r.body.channel == 0
      && r.body.pitch == e.eventType.midi.midiData[1] as int
      && r.body.velocity == e.eventType.midi.midiData[2] as real
      && r.body.tuning == e.eventType.midi.detune
    ensures r.body.NoteOn? ==> r.body.length == 0
  {
    var m := e.eventType.midi;
    var body :=
      if m.midiData[0] == 0x90 then NoteOn(0, m.midiData[1] as int, m.detune, m.midiData[2] as real, 0, -1)
      else if m.midiData[0] == 0x80 then NoteOff(0, m.midiData[1] as int, m.detune, m.midiData[2] as real, -1)
      else ZeroNoteOn;
    Vst3Event(0, AsI32(e.blockTime), e.ppqTime, body)
  }

  /** Only the channel-1 status bytes are recognised: a note-on or
      note-off on any other MIDI channel reaches the plugin as the
      zero-initialised event, a key-0, velocity-0 note-on with note id 0. */
  lemma OtherChannelsAreZeroed(e: FfiHostEvent)
    requires IsFfiMidi(e)
    requires e.eventType.midi.midiData[0] in {0x81 as u8, 0x8F, 0x91, 0x9F}
    ensures TranslateMidi(e).body == ZeroNoteOn && TranslateMidi(e).body.noteId != -1
  {
  }

  /** The events the MIDI loop adds, in input order. */
  function MidiList(events: seq<FfiHostEvent>): (r: seq<Vst3Event>)
    ensures |r| <= |events|
  {
    if events == [] then []
    else
      var e := Last(events);
      MidiList(events[..|events| - 1]) + (if IsFfiMidi(e) then [TranslateMidi(e)] else [])
  }

  /** The list holds exactly the MIDI events, translated, in input order;
      parameter events are skipped. */
  lemma {:induction false} MidiListIsFiltered(events: seq<FfiHostEvent>)
    ensures |MidiList(events)| == |Filter(events, IsFfiMidi)|
    ensures forall i :: 0 <= i < |MidiList(events)| ==> MidiList(events)[i] == TranslateMidi(Filter(events, IsFfiMidi)[i])
  {
    if events != [] {
      var init := events[..|events| - 1];
      MidiListIsFiltered(init);
      if IsFfiMidi(Last(events)) {
        assert Filter(events, IsFfiMidi) == Filter(init, IsFfiMidi) + [Last(events)];
      }
    }
  }

  /** A parameter's queue in `ParameterChanges`: its ParamID and its
      (sample offset, value) points. */
  datatype ParamQueue = ParamQueue(id: nat, points: seq<(int, Value)>)

  /** The position of the queue for `id`, which `addParameterData`
      returns when the id already has a queue. */
  function QueueIndex(qs: seq<ParamQueue>, id: nat): (r: Option<nat>)
    ensures r.Some? ==> r.value < |qs| && qs[r.value].id == id
    ensures r.Some? ==> forall j :: 0 <= j < r.value ==> qs[j].id != id
    ensures r.None? <==> forall j :: 0 <= j < |qs| ==> qs[j].id != id
  {
    if qs == [] then None
    else if qs[0].id == id then Some(0)
    else match QueueIndex(qs[1..], id)
      case None => None
      case Some(k) => Some(k + 1)
  }

  /** The points of the queue for `id`, if it has one. */
  function QueueFor(qs: seq<ParamQueue>, id: nat): Option<seq<(int, Value)>> {
    match QueueIndex(qs, id)
    case None => None
    case Some(k) => Some(qs[k].points)
  }

  /** One parameter event: find or add the queue for `id`, clear it, add
      the point. */
  function SetPoint(qs: seq<ParamQueue>, id: nat, point: (int, Value)): seq<ParamQueue> {
    match QueueIndex(qs, id)
    case Some(k) => qs[k := ParamQueue(id, [point])]
    case None => qs + [ParamQueue(id, [point])]
  }

  /** The queue key and the point a parameter event gives. */
  function KeyOf(e: FfiHostEvent): nat
    requires e.eventType.FfiParameter?
  {
    AsU32(e.eventType.param.parameterId)
  }

  function PointOf(e: FfiHostEvent): (int, Value)
    requires e.eventType.FfiParameter?
  {
    (AsI32(e.blockTime), e.eventType.param.currentValue)
  }

  /** The queues of a `ParameterChanges` that may not exist yet. */
  function OrEmpty(changes: Option<seq<ParamQueue>>): seq<ParamQueue> {
    if changes.Some? then changes.value else []
  }

  /** The parameter changes after the parameter loop: created on the first
      parameter event, then one `SetPoint` per parameter event. */
  function ChangesAfter(changes: Option<seq<ParamQueue>>, events: seq<FfiHostEvent>): Option<seq<ParamQueue>> {
    if events == [] then changes
    else
      var before := ChangesAfter(changes, events[..|events| - 1]);
      var e := Last(events);
      if e.eventType.FfiParameter? then Some(SetPoint(OrEmpty(before), KeyOf(e), PointOf(e)))
      else before
  }

  /** Whether `e` is a parameter event for queue key `id`. */
  predicate IsParamFor(e: FfiHostEvent, id: nat) {
    e.eventType.FfiParameter? && KeyOf(e) == id
  }

  /** The last parameter event for queue key `id`: None exactly when there
      is none, and otherwise one at a position after which no event has
      that key. */
  function LastParamEvent(events: seq<FfiHostEvent>, id: nat): (r: Option<FfiHostEvent>)
    ensures r.None? <==> forall e :: e in events ==> !IsParamFor(e, id)
    ensures r.Some? ==> IsParamFor(r.value, id)
    ensures r.Some? ==> exists i :: (0 <= i < |events| && events[i] == r.value
      && forall j :: i < j < |events| ==> !IsParamFor(events[j], id))
  {
    if events == [] then None
    else
      var e := Last(events);
      if IsParamFor(e, id) then Some(e)
      else LastParamEvent(events[..|events| - 1], id)
  }

  lemma {:induction false} QueueIndexIs(qs: seq<ParamQueue>, id: nat, k: nat)
    requires k < |qs| && qs[k].id == id
    requires forall j :: 0 <= j < k ==> qs[j].id != id
    ensures QueueIndex(qs, id) == Some(k)
  {
    if k > 0 {
      var tail := qs[1..];
      forall j | 0 <= j < k - 1 ensures tail[j].id != id {
        assert tail[j] == qs[j + 1];
      }
      assert tail[k - 1] == qs[k];
      QueueIndexIs(tail, id, k - 1);
    }
  }

  /** `SetPoint` leaves `id` with the one new point and every other
      parameter's queue as it was. */
  lemma SetPointEffect(qs: seq<ParamQueue>, id: nat, point: (int, Value), other: nat)
    ensures QueueFor(SetPoint(qs, id, point), id) == Some([point])
    ensures other != id ==> QueueFor(SetPoint(qs, id, point), other) == QueueFor(qs, other)
  {
    var r := SetPoint(qs, id, point);
    match QueueIndex(qs, id)
    case Some(k) =>
      forall j | 0 <= j < |qs| ensures r[j].id == qs[j].id {
      }
      QueueIndexIs(r, id, k);
      if other != id {
        match QueueIndex(qs, other)
        case None =>
        case Some(m) =>
          QueueIndexIs(r, other, m);
      }
    case None =>
      forall j | 0 <= j < |qs| ensures r[j] == qs[j] {
      }
      QueueIndexIs(r, id, |qs|);
      if other != id {
        match QueueIndex(qs, other)
        case None =>
          assert r[|qs|].id != other;
        case Some(m) =>
          QueueIndexIs(r, other, m);
      }
  }

  /** After the parameter loop, each parameter that had events this block
      holds exactly one point, from its last event in input order; every
      other parameter's queue is as it was. */
  lemma {:induction false} LastPointWins(changes: Option<seq<ParamQueue>>, events: seq<FfiHostEvent>, id: nat)
    ensures LastParamEvent(events, id).Some? ==>
      ChangesAfter(changes, events).Some?
      && QueueFor(ChangesAfter(changes, events).value, id) == Some([PointOf(LastParamEvent(events, id).value)])
    ensures LastParamEvent(events, id).None? ==>
      QueueFor(OrEmpty(ChangesAfter(changes, events)), id) == QueueFor(OrEmpty(changes), id)
  {
    if events != [] {
      var init := events[..|events| - 1];
      var e := Last(events);
      LastPointWins(changes, init, id);
      if e.eventType.FfiParameter? {
        SetPointEffect(OrEmpty(ChangesAfter(changes, init)), KeyOf(e), PointOf(e), id);
      }
    }
  }

  /** The slots after binding host buses `0 .. count - 1` to slots of the
      same number; a slot holds the host bus whose buffers it points at. */
  function BoundSlots(slots: seq<int>, count: nat): (r: seq<int>)
    requires count <= |slots|
    ensures |r| == |slots|
    ensures forall i :: 0 <= i < |slots| ==> r[i] == (if i < count then i else slots[i])
  {
    seq(|slots|, i requires 0 <= i < |slots| => if i < count then i else slots[i])
  }

  /** The input binding as written: every host input bus is written to
      slot 0, so slot 0 ends with the last one and the others are left. */
  function InputSlotsAsWritten(slots: seq<int>, count: nat): (r: seq<int>)
    requires slots != [] || count == 0
    ensures |r| == |slots|
    ensures count > 0 ==> r[0] == count - 1
    ensures forall i :: 0 < i < |slots| ==> r[i] == slots[i]
  {
    if count == 0 then slots else slots[0 := count - 1]
  }

  /** With two input buses and two slots, the binding as written loses
      bus 0 and leaves slot 1 unbound, where slot-by-slot binding (as for
      the outputs) binds both. */
  lemma TwoInputBusesShareSlotZero()
    ensures InputSlotsAsWritten([-1, -1], 2) == [1, -1]
    ensures BoundSlots([-1, -1], 2) == [0, 1]
  {
  }

  /** The loop that binds each host bus to its slot. */
  method BindSlots(slots: array<int>, count: nat)
    requires count <= slots.Length
    modifies slots
    ensures slots[..] == BoundSlots(old(slots[..]), count)
  {
    for i := 0 to count
      invariant forall j :: 0 <= j < slots.Length ==> slots[j] == (if j < i then j else old(slots[j]))
    {
      slots[i] := i;
    }
  }

  /** What the plugin's `process` is handed. */
  datatype Delivery = Delivery(
    numSamples: int,
    context: ProcessContext,
    mode: ProcessMode,
    events: seq<Vst3Event>,
    changes: Option<seq<ParamQueue>>,
    inputs: seq<int>,
    outputs: seq<int>)

  /** The instance's `_processData` and the plugin on the other side. */
  class ProcessData {
    var numSamples: int
    var context: ProcessContext
    var mode: ProcessMode
    /** The event list of input event bus 0. */
    var inputEvents: seq<Vst3Event>
    /** `inputParameterChanges`, created on first use. */
    var changes: Option<seq<ParamQueue>>
    /** The host bus each audio bus slot is bound to (-1: none yet). */
    const inputs: array<int>
    const outputs: array<int>
    /** What each call of the plugin's `process` was handed. */
    var delivered: seq<Delivery>

    ghost predicate Valid()
      reads this
    {
      inputs != outputs && inputEvents == []
    }

    constructor (inputBuses: nat, outputBuses: nat)
      ensures Valid() && fresh(inputs) && fresh(outputs)
      ensures inputs.Length == inputBuses && outputs.Length == outputBuses
      ensures changes.None? && delivered == []
    {
      numSamples := 0;
      context := ProcessContext({}, 0.0, 0, 0, 0.0, 0.0, 0.0, 0.0, 0, 0);
      mode := Realtime;
      inputEvents := [];
      changes := None;
      inputs := new int[inputBuses](_ => -1);
      outputs := new int[outputBuses](_ => -1);
      delivered := [];
    }

    /** `process(app, data, input, output, events)` with the instance's
        `_io_config`. Input buses are bound slot by slot (see
        `InputSlotsAsWritten` for the binding as written). The event list
        is handed over with the block's MIDI events and is empty again
        afterwards. */
    method Process(d: FfiProcessDetails, events: seq<FfiHostEvent>, io: FfiIOConfiguration)
      requires Valid()
      requires io.audioInputs.count <= inputs.Length && io.audioOutputs.count <= outputs.Length
      modifies this, inputs, outputs
      ensures Valid()
      ensures numSamples == AsI32(d.blockSize)
      ensures context == ContextFor(d, ContextFlagsFor(d)) && mode == ProcessModeFor(d.playingState)
      ensures changes == ChangesAfter(old(changes), events)
      ensures inputs[..] == BoundSlots(old(inputs[..]), io.audioInputs.count)
      ensures outputs[..] == BoundSlots(old(outputs[..]), io.audioOutputs.count)
      ensures delivered == old(delivered) + [Delivery(numSamples, context, mode,
        if io.eventInputsCount > 0 then MidiList(events) else [], changes, inputs[..], outputs[..])]
    {
      numSamples := AsI32(d.blockSize);
      BindSlots(inputs, io.audioInputs.count);
      BindSlots(outputs, io.audioOutputs.count);
      var state := ContextState(d);
      context := ContextFor(d, state);
      mode := ProcessModeFor(d.playingState);
      if io.eventInputsCount > 0 {
        AddMidi(events);
      }
      AddParameterChanges(events);
      assert inputEvents == (if io.eventInputsCount > 0 then MidiList(events) else []);
      delivered := delivered + [Delivery(numSamples, context, mode, inputEvents, changes, inputs[..], outputs[..])];
      if io.eventInputsCount > 0 {
        inputEvents := [];
      }
    }

    /** The MIDI loop: each MIDI event, translated, is added to the list. */
    method AddMidi(events: seq<FfiHostEvent>)
      modifies this
      ensures inputEvents == old(inputEvents) + MidiList(events)
      ensures numSamples == old(numSamples) && context == old(context) && mode == old(mode)
      ensures changes == old(changes) && delivered == old(delivered)
    {
      for i := 0 to |events|
        invariant inputEvents == old(inputEvents) + MidiList(events[..i])
        invariant numSamples == old(numSamples) && context == old(context) && mode == old(mode)
        invariant changes == old(changes) && delivered == old(delivered)
      {
        assert events[..i + 1][..i] == events[..i];
        if events[i].eventType.FfiMidi? {
          inputEvents := inputEvents + [TranslateMidi(events[i])];
        }
      }
      assert events[..|events|] == events;
    }

    /** The parameter loop: for each parameter event, find or add its
        queue, clear it and add the event's point. */
    method AddParameterChanges(events: seq<FfiHostEvent>)
      modifies this
      ensures changes == ChangesAfter(old(changes), events)
      ensures numSamples == old(numSamples) && context == old(context) && mode == old(mode)
      ensures inputEvents == old(inputEvents) && delivered == old(delivered)
    {
      for i := 0 to |events|
        invariant changes == ChangesAfter(old(changes), events[..i])
        invariant numSamples == old(numSamples) && context == old(context) && mode == old(mode)
        invariant inputEvents == old(inputEvents) && delivered == old(delivered)
      {
        assert events[..i + 1][..i] == events[..i];
        if events[i].eventType.FfiParameter? {
          assert Last(events[..i + 1]) == events[i];
          var qs := if changes.None? then [] else changes.value;
          ghost var base := qs;
          var key := AsU32(events[i].eventType.param.parameterId);
          var point := (AsI32(events[i].blockTime), events[i].eventType.param.currentValue);
          var found := QueueIndex(qs, key);
          var k := if found.Some? then found.value else |qs|;
          if found.None? {
            qs := qs + [ParamQueue(key, [])];
          }
          assert qs[k].id == key;
          qs := qs[k := qs[k].(points := [])];
          assert qs[k] == ParamQueue(key, []);
          qs := qs[k := qs[k].(points := qs[k].points + [point])];
          assert qs[k] == ParamQueue(key, [point]) by {
            assert [] + [point] == [point];
          }
          assert qs == SetPoint(base, KeyOf(events[i]), PointOf(events[i])) by {
            if found.None? {
              assert qs == base + [ParamQueue(key, [point])];
            } else {
              assert qs == base[k := ParamQueue(key, [point])];
            }
          }
          changes := Some(qs);
        }
      }
      assert events[..|events|] == events;
    }
  }
}
