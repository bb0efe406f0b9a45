/** Events exchanged between host and plugin (src/event.rs), parameter records
    (src/parameter.rs, in the shape src/formats/vst2.rs builds them) and the
    IO configuration (src/audio_bus.rs). */
module Events {
  import opened Common

  datatype MidiEvent = MidiEvent(noteLength: nat, midiData: MidiBytes, detune: real)

  /** A parameter change. `initialValue` is the value when the edit gesture
      began; `endEdit` says whether the control has just been released. */
  datatype ParameterUpdate = ParameterUpdate(
    parameterId: int,
    currentValue: Value,
    initialValue: Option<Value>,
    endEdit: Option<bool>,
    formattedValue: Option<string>)

  datatype HostEventType = Midi(midi: MidiEvent) | Parameter(param: ParameterUpdate)

  /** An event from the host; `blockTime` is in samples from the start of the
      next block. */
  datatype HostEvent = HostEvent(eventType: HostEventType, blockTime: nat, ppqTime: real, busIndex: nat)

  /** Notifications from the plugin to the host. */
  datatype PluginEvent =
    | ChangeLatency(samples: nat)
    | ResizeWindow(width: nat, height: nat)
    | ParameterEdit(update: ParameterUpdate)
    | UpdateDisplay
    | IOChanged

  datatype AudioBusDescriptor = AudioBusDescriptor(channels: nat)

  datatype IOConfiguration = IOConfiguration(
    audioInputs: seq<AudioBusDescriptor>,
    audioOutputs: seq<AudioBusDescriptor>)

  /** A parameter as the VST2 adapter reports it. */
  datatype ParameterDescriptor = ParameterDescriptor(id: int, name: string, index: int, value: Value, formattedValue: string)

  predicate IsMidi(e: HostEvent) {
    e.eventType.Midi?
  }

  predicate IsParameter(e: HostEvent) {
    e.eventType.Parameter?
  }
}
