/** The records that cross the C ABI between the Rust crate and the VST3
    wrapper (vst3-wrapper/source/bindings.h) and the wrapper's own edit
    record (vst3-wrapper/source/vst3wrapper.h). Integer widths are kept as
    ranges on `int`; the conversions between them are the ones in Common. */
module Bindings {
  import opened Common
  import opened Events
  import opened Transport

  /** Number of slots in a `HeaplessVec<AudioBusDescriptor, 16>`. */
  const HEAPLESS_CAPACITY: nat := 16

  /** `HeaplessVec<AudioBusDescriptor, 16>`: a count and sixteen slots; the
      slots at and after `count` hold whatever the writer left there. */
  datatype HeaplessVec = HeaplessVec(count: nat, data: seq<AudioBusDescriptor>)

  predicate WellFormedVec(v: HeaplessVec) {
    |v.data| == HEAPLESS_CAPACITY && v.count <= HEAPLESS_CAPACITY
  }

  /** The descriptors a reader of the vector sees: the first `count` slots. */
  function Contents(v: HeaplessVec): (r: seq<AudioBusDescriptor>)
    requires WellFormedVec(v)
    ensures |r| == v.count
    ensures forall i :: 0 <= i < v.count ==> r[i] == v.data[i]
  {
    v.data[..v.count]
  }

  /** `IOConfigutaion` as the wrapper fills it. */
  datatype FfiIOConfiguration = FfiIOConfiguration(
    audioInputs: HeaplessVec,
    audioOutputs: HeaplessVec,
    eventInputsCount: int)

  /** The zero-initialised `IOConfigutaion {}`. */
  function EmptyIOConfiguration(): (c: FfiIOConfiguration)
    ensures WellFormedVec(c.audioInputs) && WellFormedVec(c.audioOutputs)
    ensures c.audioInputs.count == 0 && c.audioOutputs.count == 0 && c.eventInputsCount == 0
  {
    var zero := HeaplessVec(0, seq(HEAPLESS_CAPACITY, _ => AudioBusDescriptor(0)));
    FfiIOConfiguration(zero, zero, 0)
  }

  /** The C `ProcessDetails`: the Rust `Option` cycle is flattened into a
      flag and two positions. */
  datatype FfiProcessDetails = FfiProcessDetails(
    sampleRate: nat,
    blockSize: nat,
    tempo: real,
    playerTime: real,
    timeSignatureNumerator: nat,
    timeSignatureDenominator: nat,
    cycleEnabled: bool,
    cycleStart: real,
    cycleEnd: real,
    playingState: PlayingState,
    barStartPos: real,
    nanos: real)

  /** The C `ParameterUpdate`: an `int32_t` id, the resolved parameter
      index, and plain (possibly NaN) initial value and end-of-edit flag. */
  datatype FfiParameterUpdate = FfiParameterUpdate(
    parameterId: int,
    parameterIndex: int,
    currentValue: Value,
    initialValue: Value,
    endEdit: bool)

  datatype FfiHostEventType = FfiMidi(midi: MidiEvent) | FfiParameter(param: FfiParameterUpdate)

  /** `HostIssuedEvent` as the wrapper's `process` receives it. */
  datatype FfiHostEvent = FfiHostEvent(eventType: FfiHostEventType, blockTime: nat, ppqTime: real, busIndex: nat)

  /** `PluginIssuedEvent`: what the wrapper hands to `send_event_to_host`. */
  datatype FfiPluginEvent =
    | FfiChangeLatency(samples: nat)
    | FfiResizeWindow(width: nat, height: nat)
    | FfiParameterChange(update: FfiParameterUpdate)
    | FfiUpdateDisplay
    | FfiIOChanged

  /** `ParameterEditState`: one edit gesture in progress in the plugin's
      own editor. `id` is the `int` the wrapper stores. */
  datatype ParameterEditState = ParameterEditState(id: int, initialValue: Value, currentValue: Value, finished: bool)

  /** `ParameterFFI`: a parameter as `get_parameter` reports it. */
  datatype ParameterFfi = ParameterFfi(
    id: int,
    name: string,
    index: int,
    value: Value,
    formattedValue: string,
    hidden: bool,
    canAutomate: bool,
    isWrapAround: bool,
    readOnly: bool)

  /** The producer side of the plugin-issued event queue, shared by every
      object that reports to the host; `send_event_to_host` appends. */
  class EventSink {
    var events: seq<FfiPluginEvent>

    constructor ()
      ensures events == []
    {
      events := [];
    }

    method Send(e: FfiPluginEvent)
      modifies this
      ensures events == old(events) + [e]
    {
      events := events + [e];
    }
  }
}
