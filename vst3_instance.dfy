/** The VST3 plugin instance of the C++ wrapper
    (vst3-wrapper/source/vst3wrapper.cpp): the reference-counted host
    context shared by all instances, `init` and `_destroy`, the IO
    configuration reported to Rust, and `get_parameter`. The SDK's module
    loader, plug provider and bus queries are oracles: their answers are
    parameters. */
module Vst3Instance {
  import opened Common
  import opened Events
  import opened Bindings
  import opened ParamEdits

  /** `_standardPluginContext` (present or null) and
      `_standardPluginContextRefCount`, as one value. */
  datatype Registry = Registry(refCount: int, hasContext: bool)

  /** The registry is consistent when a context exists exactly while some
      instance holds a reference. */
  predicate Consistent(r: Registry) {
    r.refCount >= 0 && (r.hasContext <==> r.refCount > 0)
  }

  /** The registry after `init`: one more reference, and a context. */
  function InitRegistry(r: Registry): (r': Registry)
    ensures r'.refCount == r.refCount + 1 && r'.hasContext
  {
    Registry(r.refCount + 1, true)
  }

  /** The registry after `_destroy(decrement)`. */
  function DestroyRegistry(r: Registry, decrement: bool): Registry {
    if !decrement then r
    else
      var count := if r.refCount > 0 then r.refCount - 1 else r.refCount;
      Registry(count, r.hasContext && count != 0)
  }

  /** `_destroy(true)` never takes the count below zero and releases the
      context exactly when the count reaches zero with a context present;
      `_destroy(false)` leaves the registry alone. */
  lemma DestroyReleasesAtZero(r: Registry, decrement: bool)
    ensures var r' := DestroyRegistry(r, decrement);
      && (!decrement ==> r' == r)
      && (decrement && r.refCount > 0 ==> r'.refCount == r.refCount - 1)
      && (decrement && r.refCount <= 0 ==> r'.refCount == r.refCount)
      && (decrement ==> (r'.hasContext <==> r.hasContext && r'.refCount != 0))
  {
  }

  /** Every `init` and `_destroy` keeps the registry consistent, and a
      `destroy` that follows an `init` puts it back as it was. */
  lemma RegistryStaysConsistent(r: Registry, decrement: bool)
    requires Consistent(r)
    ensures Consistent(InitRegistry(r))
    ensures Consistent(DestroyRegistry(r, decrement))
    ensures DestroyRegistry(InitRegistry(r), true) == r
  {
  }

  /** The parts of a factory class entry the wrapper looks at. */
  datatype ClassInfo = ClassInfo(name: string, isAudioEffect: bool)

  /** What `VST3::Hosting::Module::create` gives for a path. */
  datatype ModuleLoad = LoadFailed | Loaded(classes: seq<ClassInfo>)

  /** Position of the first audio-effect class. */
  function FirstAudioEffect(classes: seq<ClassInfo>): (r: Option<nat>)
    ensures r.Some? ==> r.value < |classes| && classes[r.value].isAudioEffect
    ensures r.Some? ==> forall j :: 0 <= j < r.value ==> !classes[j].isAudioEffect
    ensures r.None? <==> forall j :: 0 <= j < |classes| ==> !classes[j].isAudioEffect
  {
    if classes == [] then None
    else if classes[0].isAudioEffect then Some(0)
    else match FirstAudioEffect(classes[1..])
      case None => None
      case Some(k) => Some(k + 1)
  }

  /** What `init` returns: false when the module does not load, the result
      of loading the first audio-effect class when there is one, and true
      when there is none. */
  function InitResult(load: ModuleLoad, classLoaded: bool): (ok: bool)
    ensures load.LoadFailed? ==> !ok
    ensures load.Loaded? && FirstAudioEffect(load.classes).Some? ==> (ok <==> classLoaded)
    ensures load.Loaded? && FirstAudioEffect(load.classes).None? ==> ok
  {
    match load
    case LoadFailed => false
    case Loaded(classes) => FirstAudioEffect(classes).None? || classLoaded
  }

  /** The parts of `ParameterInfo::flags` the wrapper tests. */
  datatype ParameterFlag = WrapAround | Hidden | CanAutomateFlag | ReadOnly | List | ProgramChange | Bypass

  /** `ParameterInfo` as the edit controller fills it; `title` is the whole
      fixed-size character array. */
  datatype ParameterInfo = ParameterInfo(id: nat, title: string, flags: set<ParameterFlag>)

  /** The wrapper copies a fixed-size character array by skipping every
      NUL, including those before later characters. */
  function StripNul(s: string): (r: string)
    ensures forall c :: c in r <==> c in s && c != '\0'
  {
    Filter(s, (c: char) => c != '\0')
  }

  /** A title without NULs comes back unchanged, and the text on both
      sides of an embedded NUL is kept. */
  lemma StripNulKeepsText(s: string, before: string, after: string)
    ensures (forall i :: 0 <= i < |s| ==> s[i] != '\0') ==> StripNul(s) == s
    ensures StripNul(before + ['\0'] + after) == StripNul(before) + StripNul(after)
  {
    var notNul := (c: char) => c != '\0';
    if forall i :: 0 <= i < |s| ==> s[i] != '\0' {
      FilterKeepsAll(s, notNul);
    }
    FilterAppend(before + ['\0'], after, notNul);
    FilterAppend(before, ['\0'], notNul);
    assert ['\0'][..0] == [];
  }

  /** `ParameterFFI` as `get_parameter` fills it: `index` is the argument,
      the id comes from the parameter info, and each flag is a bit test. */
  function ParameterFor(index: int, info: ParameterInfo, value: Value, formatted: string): (p: ParameterFfi)
    requires info.id < TWO_32
    ensures p.index == index && p.value == value
    ensures AsU32(p.id) == info.id
    ensures p.isWrapAround <==> WrapAround in info.flags
    ensures p.hidden <==> Hidden in info.flags
    ensures p.canAutomate <==> CanAutomateFlag in info.flags
    ensures p.readOnly <==> ReadOnly in info.flags
    ensures '\0' !in p.name && '\0' !in p.formattedValue
    ensures p.id == AsI32(info.id)
    ensures p.name == StripNul(info.title) && p.formattedValue == StripNul(formatted)
  {
    ParamIdRoundTrip(info.id);
    ParameterFfi(AsI32(info.id), StripNul(info.title), index, value, StripNul(formatted),
      Hidden in info.flags, CanAutomateFlag in info.flags, WrapAround in info.flags, ReadOnly in info.flags)
  }

  /** The `HeaplessVec` the wrapper fills for a list of buses whose
      `channelCount`s are `channels`: a count and the slots, converted to
      `uintptr_t`, with the remaining slots still zero. */
  function VecFor(channels: seq<int>): (v: HeaplessVec)
    requires |channels| <= HEAPLESS_CAPACITY
    ensures WellFormedVec(v)
  {
    HeaplessVec(|channels|, seq(HEAPLESS_CAPACITY, i requires 0 <= i < HEAPLESS_CAPACITY =>
      AudioBusDescriptor(if i < |channels| then AsUsize(channels[i]) else 0)))
  }

  /** A reader of the vector sees one descriptor per bus, in bus order,
      carrying that bus's channel count. */
  lemma VecForContents(channels: seq<int>)
    requires |channels| <= HEAPLESS_CAPACITY
    ensures |Contents(VecFor(channels))| == |channels|
    ensures forall i :: 0 <= i < |channels| ==> Contents(VecFor(channels))[i].channels == AsUsize(channels[i])
    ensures forall i :: 0 <= i < |channels| && 0 <= channels[i] < TWO_64 ==> Contents(VecFor(channels))[i].channels == channels[i]
  {
  }

  /** The configuration reported for the given buses. */
  function IoConfigFor(audioInputs: seq<int>, audioOutputs: seq<int>, eventInputs: int): FfiIOConfiguration
    requires |audioInputs| <= HEAPLESS_CAPACITY && |audioOutputs| <= HEAPLESS_CAPACITY
  {
    FfiIOConfiguration(VecFor(audioInputs), VecFor(audioOutputs), eventInputs)
  }

  /** The stores the loop of `get_io_config` makes as written: the count
      it reaches and one (slot, channels) store per bus, with no bound on
      the slot. */
  datatype SlotStores = SlotStores(count: nat, stores: seq<(nat, nat)>)

  function IoVecAsWritten(channels: seq<int>): (w: SlotStores)
    ensures w.count == |channels| && |w.stores| == |channels|
    ensures forall i :: 0 <= i < |channels| ==> w.stores[i] == (i, AsUsize(channels[i]))
  {
    SlotStores(|channels|, seq(|channels|, i requires 0 <= i < |channels| => (i, AsUsize(channels[i]))))
  }

  /** A plugin with 17 audio input buses makes the loop store into slot
      16 of a 16-slot array and report a count of 17. */
  lemma SeventeenBusesOverflow()
    ensures var w := IoVecAsWritten(seq(17, _ => 2));
      w.count > HEAPLESS_CAPACITY && w.stores[16].0 >= HEAPLESS_CAPACITY
  {
  }

  /** Within capacity the corrected vector holds exactly what the loop as
      written stores, with the same count. */
  lemma CorrectedAgreesWithinCapacity(channels: seq<int>)
    requires |channels| <= HEAPLESS_CAPACITY
    ensures VecFor(channels).count == IoVecAsWritten(channels).count
    ensures forall i :: 0 <= i < |channels| ==>
      IoVecAsWritten(channels).stores[i].0 < HEAPLESS_CAPACITY
      && VecFor(channels).data[IoVecAsWritten(channels).stores[i].0].channels == IoVecAsWritten(channels).stores[i].1
  {
  }

  /** A bus's `BusInfo`, of which only the channel count is used. */
  datatype BusInfo = BusInfo(channelCount: int)

  /** The instance's bus bookkeeping: `_numInAudioBuses`,
      `_inAudioBusInfos` and so on, and `_inSpeakerArrs` /
      `_outSpeakerArrs` (speaker arrangement bit masks). */
  datatype Buses = Buses(
    numInAudio: int, numOutAudio: int, numInEvent: int, numOutEvent: int,
    inAudioInfos: seq<BusInfo>, outAudioInfos: seq<BusInfo>,
    inEventInfos: seq<BusInfo>, outEventInfos: seq<BusInfo>,
    inSpeakerArrs: seq<int>, outSpeakerArrs: seq<int>)

  /** No buses: every count 0 and every list empty. */
  const NoBuses: Buses := Buses(0, 0, 0, 0, [], [], [], [], [], [])

  /** The static host context, shared by all instances. */
  class HostContext {
    var refCount: int
    var hasContext: bool
    /** How many times a context has been created (`owned(NEW HostApplication())`). */
    var created: nat

    constructor ()
      ensures refCount == 0 && !hasContext && created == 0
    {
      refCount := 0;
      hasContext := false;
      created := 0;
    }

    function Snapshot(): Registry
      reads this
    {
      Registry(refCount, hasContext)
    }

    /** The reference taken by `init`; the context is created if absent. */
    method Acquire()
      modifies this
      ensures Snapshot() == InitRegistry(old(Snapshot()))
      ensures created == old(created) + (if old(hasContext) then 0 else 1)
    {
      refCount := refCount + 1;
      if !hasContext {
        hasContext := true;
        created := created + 1;
      }
    }

    /** The reference released by `_destroy(true)`. */
    method Release()
      modifies this
      ensures Snapshot() == DestroyRegistry(old(Snapshot()), true)
      ensures created == old(created)
    {
      if refCount > 0 {
        refCount := refCount - 1;
      }
      if hasContext && refCount == 0 {
        hasContext := false;
      }
    }
  }

  class PluginInstance {
    const context: HostContext
    /** `parameter_indicies`, shared with the component handler. */
    const parameterIndices: ParameterIndexTable
    /** `_module` is not null. */
    var hasModule: bool
    /** The class handed to `load_plugin_from_class`, if any. */
    var loadedClass: Option<ClassInfo>
    var buses: Buses
    var name: string
    /** `_io_config`, as last computed by `get_io_config`. */
    var ioConfig: FfiIOConfiguration

    constructor (context: HostContext, parameterIndices: ParameterIndexTable)
      ensures this.context == context && this.parameterIndices == parameterIndices
      ensures Reset() && loadedClass.None? && ioConfig == EmptyIOConfiguration()
    {
      this.context := context;
      this.parameterIndices := parameterIndices;
      hasModule := false;
      loadedClass := None;
      buses := NoBuses;
      name := "";
      ioConfig := EmptyIOConfiguration();
    }

    /** The state `_destroy` leaves: no module, no buses, no name. */
    predicate Reset()
      reads this
    {
      !hasModule && buses == NoBuses && name == ""
    }

    /** `_destroy(decrementRefCount)`. `_io_config` is not reset. */
    method Destroy(decrementRefCount: bool)
      modifies this, context
      ensures Reset() && loadedClass.None? && ioConfig == old(ioConfig)
      ensures context.Snapshot() == DestroyRegistry(old(context.Snapshot()), decrementRefCount)
      ensures context.created == old(context.created)
    {
      ClearPlugin();
      if decrementRefCount {
        context.Release();
      }
    }

    /** The resets at the start of `_destroy`: the plug provider, component
        and controllers are released, so no class stays loaded. */
    method ClearPlugin()
      modifies this
      ensures Reset() && loadedClass.None? && ioConfig == old(ioConfig)
    {
      loadedClass := None;
      hasModule := false;
      buses := NoBuses;
      name := "";
    }

    /** `init(path)`: tears down without releasing the reference, takes a
        reference, creates the shared context if there is none, loads the
        module and hands the first audio-effect class to
        `load_plugin_from_class`, whose result (`classLoaded`) it returns.
        A class load that succeeds ends with `get_io_config` over the buses
        the component reports (`audioInputs`, `audioOutputs`,
        `eventInputs`); one that fails returns before it, leaving the name
        and buses as `_destroy` reset them. A successful load takes the
        class name and the bus bookkeeping `loadedBuses` that the component
        reports; the SDK calls behind it are not modelled. */
    method Init(load: ModuleLoad, classLoaded: bool, loadedBuses: Buses,
                audioInputs: seq<int>, audioOutputs: seq<int>, eventInputs: int)
      returns (ok: bool)
      modifies this, context
      ensures ok == InitResult(load, classLoaded)
      ensures context.Snapshot() == InitRegistry(old(context.Snapshot()))
      ensures context.created == old(context.created) + (if old(context.hasContext) then 0 else 1)
      ensures hasModule <==> load.Loaded?
      ensures loadedClass == (if load.Loaded? && FirstAudioEffect(load.classes).Some?
        then Some(load.classes[FirstAudioEffect(load.classes).value]) else None)
      ensures ioConfig == (if load.Loaded? && FirstAudioEffect(load.classes).Some? && classLoaded
        && |audioInputs| <= HEAPLESS_CAPACITY && |audioOutputs| <= HEAPLESS_CAPACITY
        then IoConfigFor(audioInputs, audioOutputs, eventInputs) else old(ioConfig))
      ensures name == (if load.Loaded? && FirstAudioEffect(load.classes).Some? && classLoaded
        then load.classes[FirstAudioEffect(load.classes).value].name else "")
      ensures buses == (if load.Loaded? && FirstAudioEffect(load.classes).Some? && classLoaded
        then loadedBuses else NoBuses)
    {
      Destroy(false);
      context.Acquire();
      if load.LoadFailed? {
        return false;
      }
      hasModule := true;
      var classes := load.classes;
      for i := 0 to |classes|
        invariant forall j :: 0 <= j < i ==> !classes[j].isAudioEffect
      {
        if classes[i].isAudioEffect {
          assert FirstAudioEffect(classes) == Some(i) by {
            FirstAudioEffectIs(classes, i);
          }
          loadedClass := Some(classes[i]);
          if classLoaded {
            name := classes[i].name;
            buses := loadedBuses;
            var _ := GetIoConfig(audioInputs, audioOutputs, eventInputs);
          }
          return classLoaded;
        }
      }
      ok := true;
    }

    /** `get_io_config`, given the channel count `getBusInfo` reports for
        each audio bus and the number of event input buses. The wrapper
        stores into a 16-slot array without a bound; here more than 16
        buses in either direction is an error and changes nothing. */
    method GetIoConfig(audioInputs: seq<int>, audioOutputs: seq<int>, eventInputs: int)
      returns (r: Result<FfiIOConfiguration, string>)
      modifies this
      ensures r.Ok? <==> |audioInputs| <= HEAPLESS_CAPACITY && |audioOutputs| <= HEAPLESS_CAPACITY
      ensures r.Ok? ==> r.value == IoConfigFor(audioInputs, audioOutputs, eventInputs) && ioConfig == r.value
      ensures r.Err? ==> ioConfig == old(ioConfig)
      ensures hasModule == old(hasModule) && loadedClass == old(loadedClass)
      ensures buses == old(buses) && name == old(name)
    {
      if |audioInputs| > HEAPLESS_CAPACITY || |audioOutputs| > HEAPLESS_CAPACITY {
        return Err("more than 16 audio buses");
      }
      var inputs := FillSlots(audioInputs);
      var outputs := FillSlots(audioOutputs);
      var config := FfiIOConfiguration(inputs, outputs, eventInputs);
      ioConfig := config;
      r := Ok(config);
    }

    /** `get_parameter(app, id)`: records `parameter_indicies[info.id] =
        id` and reports the parameter. */
    method GetParameter(index: int, info: ParameterInfo, value: Value, formatted: string) returns (p: ParameterFfi)
      requires info.id < TWO_32
      modifies parameterIndices
      ensures parameterIndices.entries == old(parameterIndices.entries)[info.id := index]
      ensures p == ParameterFor(index, info, value, formatted)
    {
      parameterIndices.Record(info.id, index);
      p := ParameterFor(index, info, value, formatted);
    }
  }

  lemma {:induction false} FirstAudioEffectIs(classes: seq<ClassInfo>, k: nat)
    requires k < |classes| && classes[k].isAudioEffect
    requires forall j :: 0 <= j < k ==> !classes[j].isAudioEffect
    ensures FirstAudioEffect(classes) == Some(k)
  {
    if k > 0 {
      var tail := classes[1..];
      forall j | 0 <= j < k - 1 ensures !tail[j].isAudioEffect {
        assert tail[j] == classes[j + 1];
      }
      assert tail[k - 1] == classes[k];
      FirstAudioEffectIs(tail, k - 1);
    }
  }

  /** The loop of `get_io_config` over one direction: the count goes up
      and the next slot is written, bus by bus. */
  method FillSlots(channels: seq<int>) returns (v: HeaplessVec)
    requires |channels| <= HEAPLESS_CAPACITY
    ensures v == VecFor(channels)
  {
    var data := new AudioBusDescriptor[HEAPLESS_CAPACITY](_ => AudioBusDescriptor(0));
    var count := 0;
    for i := 0 to |channels|
      invariant count == i
      invariant forall j :: 0 <= j < HEAPLESS_CAPACITY ==>
        data[j] == AudioBusDescriptor(if j < i then AsUsize(channels[j]) else 0)
    {
      count := count + 1;
      data[i] := AudioBusDescriptor(AsUsize(channels[i]));
    }
    v := HeaplessVec(count, data[..]);
  }
}
