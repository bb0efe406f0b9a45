/** The host side of the VST2 adapter (`Vst2Host` in src/formats/vst2.rs):
    the callbacks a VST2 plugin makes into the host. Edit gestures are
    tracked in two lists and reported to the host as parameter events; the
    transport is reported through `get_time_info`. */
module Vst2Callbacks {
  import opened Common
  import opened Events
  import opened Transport
  import opened Ring

  /** One gesture in progress: the parameter index, its latest value and
      its value when the gesture began. */
  datatype ParamState = ParamState(index: int, current: Value, initial: Value)

  /** `EditorParamsState`: indices announced by `begin_edit` and not yet
      automated, and the gestures in progress, oldest first. */
  datatype EditorParamsState = EditorParamsState(justStarted: seq<int>, currentlyEditing: seq<ParamState>)

  const EmptyEditorState: EditorParamsState := EditorParamsState([], [])

  /** The state after a callback and the parameter event it sends, if any. */
  datatype Callback = Callback(state: EditorParamsState, emitted: Option<ParameterUpdate>)

  /** `iter().position(|p| p.index == index)`: the first gesture on `index`. */
  function Position(edits: seq<ParamState>, index: int): (r: Option<nat>)
    ensures r.Some? ==> r.value < |edits| && edits[r.value].index == index
    ensures r.Some? ==> forall k :: 0 <= k < r.value ==> edits[k].index != index
    ensures r.None? <==> forall k :: 0 <= k < |edits| ==> edits[k].index != index
  {
    if edits == [] then None
    else if edits[0].index == index then Some(0)
    else match Position(edits[1..], index)
      case None => None
      case Some(p) => Some(p + 1)
  }

  /** `retain(|&i| i != x)`: every occurrence of `x` dropped. */
  function Without(s: seq<int>, x: int): (r: seq<int>)
    ensures x !in r
    ensures forall y :: y != x ==> multiset(r)[y] == multiset(s)[y]
    ensures x !in s ==> r == s
  {
    if s == [] then []
    else
      var init := s[..|s| - 1];
      assert s == init + [Last(s)];
      if Last(s) == x then Without(init, x) else Without(init, x) + [Last(s)]
  }

  function RemoveAt<T>(s: seq<T>, p: nat): (r: seq<T>)
    requires p < |s|
    ensures |r| == |s| - 1
    ensures forall k :: 0 <= k < p ==> r[k] == s[k]
    ensures forall k :: p <= k < |r| ==> r[k] == s[k + 1]
  {
    s[..p] + s[p + 1..]
  }

  /** `automate(index, value)`. A gesture is started (with no initial value
      reported) when `begin_edit` has just announced the index or no gesture
      on it is in progress, otherwise the first gesture on the index is
      updated and its initial value is reported. The index always leaves
      `just_started`, and the event never ends an edit. */
  function AutomateStep(st: EditorParamsState, index: int, value: Value): (r: Callback)
    ensures r.emitted.Some?
    ensures r.emitted.value.parameterId == index && r.emitted.value.currentValue == value
    ensures r.emitted.value.endEdit == Some(false) && r.emitted.value.formattedValue.None?
    ensures r.state.justStarted == Without(st.justStarted, index)
    ensures index in st.justStarted || Position(st.currentlyEditing, index).None? ==>
      r.state.currentlyEditing == st.currentlyEditing + [ParamState(index, value, value)]
      && r.emitted.value.initialValue.None?
    ensures index !in st.justStarted && Position(st.currentlyEditing, index).Some? ==>
      var p := Position(st.currentlyEditing, index).value;
      |r.state.currentlyEditing| == |st.currentlyEditing|
      && r.state.currentlyEditing[p] == st.currentlyEditing[p].(current := value)
      && (forall k :: 0 <= k < |st.currentlyEditing| && k != p ==>
            r.state.currentlyEditing[k] == st.currentlyEditing[k])
      && r.emitted.value.initialValue == Some(st.currentlyEditing[p].initial)
  {
    var editing := Position(st.currentlyEditing, index);
    var kept := Without(st.justStarted, index);
    if index in st.justStarted || editing.None? then
      Callback(EditorParamsState(kept, st.currentlyEditing + [ParamState(index, value, value)]),
               Some(ParameterUpdate(index, value, None, Some(false), None)))
    else
      var p := editing.value;
      var e := st.currentlyEditing[p];
      Callback(EditorParamsState(kept, st.currentlyEditing[p := e.(current := value)]),
               Some(ParameterUpdate(index, value, Some(e.initial), Some(false), None)))
  }

  /** `begin_edit(index)` only announces the index. */
  function BeginEditStep(st: EditorParamsState, index: int): (r: Callback)
    ensures r.emitted.None?
    ensures r.state.justStarted == st.justStarted + [index]
    ensures r.state.currentlyEditing == st.currentlyEditing
  {
    Callback(st.(justStarted := st.justStarted + [index]), None)
  }

  /** The event that closes gesture `e`, reported under `id`. */
  function EndUpdate(id: int, e: ParamState): ParameterUpdate {
    ParameterUpdate(id, e.current, Some(e.initial), Some(true), None)
  }

  /** `end_edit(index)` as written: the inner `index` bound at line 497 is
      the gesture's position in the list, and that position is what is
      reported as the parameter id. */
  function EndEditStepAsWritten(st: EditorParamsState, index: int): (r: Callback)
    ensures Position(st.currentlyEditing, index).None? ==> r == Callback(st, None)
    ensures Position(st.currentlyEditing, index).Some? ==>
      var p := Position(st.currentlyEditing, index).value;
      r.emitted == Some(EndUpdate(AsI32(p), st.currentlyEditing[p]))
      && r.state == st.(currentlyEditing := RemoveAt(st.currentlyEditing, p))
  {
    match Position(st.currentlyEditing, index)
    case None => Callback(st, None)
    case Some(p) =>
      Callback(st.(currentlyEditing := RemoveAt(st.currentlyEditing, p)),
               Some(EndUpdate(AsI32(p), st.currentlyEditing[p])))
  }

  /** `end_edit(index)` as intended: the first gesture on `index` is closed
      and reported under `index`; nothing is sent when there is none. */
  function EndEditStep(st: EditorParamsState, index: int): (r: Callback)
    ensures r.state.justStarted == st.justStarted
    ensures Position(st.currentlyEditing, index).None? ==> r == Callback(st, None)
    ensures Position(st.currentlyEditing, index).Some? ==>
      var p := Position(st.currentlyEditing, index).value;
      var e := st.currentlyEditing[p];
      r.emitted == Some(ParameterUpdate(index, e.current, Some(e.initial), Some(true), None))
      && r.state.currentlyEditing == RemoveAt(st.currentlyEditing, p)
  {
    match Position(st.currentlyEditing, index)
    case None => Callback(st, None)
    case Some(p) =>
      Callback(st.(currentlyEditing := RemoveAt(st.currentlyEditing, p)),
               Some(EndUpdate(index, st.currentlyEditing[p])))
  }

  /** The as-written `end_edit` reports a gesture on parameter 7 as one on
      parameter 0, the gesture's place in the list. */
  lemma EndEditReportsPosition()
    ensures var st := AutomateStep(BeginEditStep(EmptyEditorState, 7).state, 7, Num(0.5)).state;
      EndEditStepAsWritten(st, 7).emitted == Some(ParameterUpdate(0, Num(0.5), Some(Num(0.5)), Some(true), None))
      && EndEditStep(st, 7).emitted == Some(ParameterUpdate(7, Num(0.5), Some(Num(0.5)), Some(true), None))
  {
    var st := AutomateStep(BeginEditStep(EmptyEditorState, 7).state, 7, Num(0.5)).state;
    assert st.currentlyEditing == [ParamState(7, Num(0.5), Num(0.5))];
    assert Position(st.currentlyEditing, 7) == Some(0);
  }

  /** A `begin_edit` on an index that is already being edited makes the next
      `automate` open a second gesture on that index. */
  lemma AutomateCanDuplicate(st: EditorParamsState, index: int, value: Value)
    requires Position(st.currentlyEditing, index).Some?
    ensures var after := AutomateStep(BeginEditStep(st, index).state, index, value).state;
      var p := Position(st.currentlyEditing, index).value;
      |after.currentlyEditing| == |st.currentlyEditing| + 1
      && after.currentlyEditing[p].index == index
      && after.currentlyEditing[|st.currentlyEditing|].index == index
      && p < |st.currentlyEditing|
  {
  }

  datatype HostCall = BeginEditCall(index: int) | AutomateCall(index: int, value: Value) | EndEditCall(index: int)

  function StepOf(st: EditorParamsState, c: HostCall): Callback {
    match c
    case BeginEditCall(i) => BeginEditStep(st, i)
    case AutomateCall(i, v) => AutomateStep(st, i, v)
    case EndEditCall(i) => EndEditStep(st, i)
  }

  datatype Trace = Trace(state: EditorParamsState, sent: seq<ParameterUpdate>)

  /** The state after a series of callbacks and the events they sent. */
  function Run(st: EditorParamsState, calls: seq<HostCall>): Trace {
    if calls == [] then Trace(st, [])
    else
      var before := Run(st, calls[..|calls| - 1]);
      var c := StepOf(before.state, Last(calls));
      Trace(c.state, before.sent + (if c.emitted.Some? then [c.emitted.value] else []))
  }

  function Automations(index: int, values: seq<Value>): (r: seq<HostCall>)
    ensures |r| == |values|
    ensures forall k :: 0 <= k < |r| ==> r[k] == AutomateCall(index, values[k])
  {
    seq(|values|, k requires 0 <= k < |values| => AutomateCall(index, values[k]))
  }

  function Dragged(index: int, first: Value, rest: seq<Value>): (r: seq<ParameterUpdate>)
    ensures |r| == |rest|
    ensures forall k :: 0 <= k < |r| ==> r[k] == ParameterUpdate(index, rest[k], Some(first), Some(false), None)
  {
    seq(|rest|, k requires 0 <= k < |rest| => ParameterUpdate(index, rest[k], Some(first), Some(false), None))
  }

  function LastOr(first: Value, rest: seq<Value>): Value {
    if rest == [] then first else Last(rest)
  }

  lemma {:induction false} PositionAfterAppend(edits: seq<ParamState>, e: ParamState)
    requires Position(edits, e.index).None?
    ensures Position(edits + [e], e.index) == Some(|edits|)
  {
    var s := edits + [e];
    assert s[|edits|] == e;
    forall k | 0 <= k < |edits| ensures s[k].index != e.index {
      assert s[k] == edits[k];
    }
  }

  /** `begin_edit` then `automate` on an index that is not being edited
      opens one gesture at the end of the list and leaves `just_started` as
      it was. */
  lemma OpenGesture(st: EditorParamsState, index: int, first: Value)
    requires index !in st.justStarted && Position(st.currentlyEditing, index).None?
    ensures Run(st, [BeginEditCall(index), AutomateCall(index, first)])
      == Trace(st.(currentlyEditing := st.currentlyEditing + [ParamState(index, first, first)]),
          [ParameterUpdate(index, first, None, Some(false), None)])
  {
    var calls := [BeginEditCall(index), AutomateCall(index, first)];
    assert calls[..1] == [BeginEditCall(index)];
    assert [BeginEditCall(index)][..0] == [];
    var begun := BeginEditStep(st, index).state;
    assert Run(st, calls[..1]) == Trace(begun, []);
    assert Without(begun.justStarted, index) == Without(st.justStarted, index);
  }

  /** A further `automate` on an open gesture replaces its current value. */
  lemma DragGesture(st: EditorParamsState, index: int, current: Value, first: Value, v: Value)
    requires index !in st.justStarted && Position(st.currentlyEditing, index).None?
    ensures AutomateStep(st.(currentlyEditing := st.currentlyEditing + [ParamState(index, current, first)]), index, v)
      == Callback(st.(currentlyEditing := st.currentlyEditing + [ParamState(index, v, first)]),
                  Some(ParameterUpdate(index, v, Some(first), Some(false), None)))
  {
    var e := ParamState(index, current, first);
    PositionAfterAppend(st.currentlyEditing, e);
    var edits := st.currentlyEditing + [e];
    assert edits[|st.currentlyEditing| := e.(current := v)] == st.currentlyEditing + [ParamState(index, v, first)];
  }

  /** The state and events while a gesture is open, before `end_edit`. */
  function Opened(st: EditorParamsState, index: int, first: Value, rest: seq<Value>): Trace {
    Trace(st.(currentlyEditing := st.currentlyEditing + [ParamState(index, LastOr(first, rest), first)]),
      [ParameterUpdate(index, first, None, Some(false), None)] + Dragged(index, first, rest))
  }

  lemma {:induction false} GestureInProgress(st: EditorParamsState, index: int, first: Value, rest: seq<Value>)
    requires index !in st.justStarted && Position(st.currentlyEditing, index).None?
    ensures Run(st, [BeginEditCall(index), AutomateCall(index, first)] + Automations(index, rest))
      == Opened(st, index, first, rest)
    decreases |rest|
  {
    var opening := [BeginEditCall(index), AutomateCall(index, first)];
    if rest == [] {
      assert opening + Automations(index, rest) == opening;
      OpenGesture(st, index, first);
    } else {
      var init := rest[..|rest| - 1];
      var v := Last(rest);
      GestureInProgress(st, index, first, init);
      OpeningSnoc(opening, index, rest);
      GestureStep(st, index, first, init, v, opening + Automations(index, init));
      assert init + [v] == rest;
    }
  }

  /** One more `automate` on an open gesture. */
  lemma GestureStep(st: EditorParamsState, index: int, first: Value, init: seq<Value>, v: Value, prefix: seq<HostCall>)
    requires index !in st.justStarted && Position(st.currentlyEditing, index).None?
    requires Run(st, prefix) == Opened(st, index, first, init)
    ensures Run(st, prefix + [AutomateCall(index, v)]) == Opened(st, index, first, init + [v])
  {
    var c := AutomateCall(index, v);
    RunSnoc(st, prefix, c);
    var open := Opened(st, index, first, init).state;
    DragGesture(st, index, LastOr(first, init), first, v);
    assert StepOf(open, c) == AutomateStep(open, index, v);
    var rest := init + [v];
    assert rest[..|rest| - 1] == init;
    SnocSequences(index, first, rest);
  }

  lemma OpeningSnoc(opening: seq<HostCall>, index: int, rest: seq<Value>)
    requires rest != []
    ensures opening + Automations(index, rest)
      == (opening + Automations(index, rest[..|rest| - 1])) + [AutomateCall(index, Last(rest))]
  {
    SnocSequences(index, NaN, rest);
  }

  lemma SnocSequences(index: int, first: Value, rest: seq<Value>)
    requires rest != []
    ensures Automations(index, rest) == Automations(index, rest[..|rest| - 1]) + [AutomateCall(index, Last(rest))]
    ensures Dragged(index, first, rest) == Dragged(index, first, rest[..|rest| - 1]) + [ParameterUpdate(index, Last(rest), Some(first), Some(false), None)]
  {
  }

  lemma RunSnoc(st: EditorParamsState, calls: seq<HostCall>, c: HostCall)
    ensures var before := Run(st, calls);
      var step := StepOf(before.state, c);
      Run(st, calls + [c]) == Trace(step.state, before.sent + (if step.emitted.Some? then [step.emitted.value] else []))
  {
    assert (calls + [c])[..|calls|] == calls;
  }

  /** A complete gesture on an index that is not being edited: the first
      value is reported with no initial value, every later value with the
      first as initial, and `end_edit` reports the last value, ends the edit
      and leaves the state exactly as it was. */
  lemma {:induction false} EditGesture(st: EditorParamsState, index: int, first: Value, rest: seq<Value>)
    requires index !in st.justStarted && Position(st.currentlyEditing, index).None?
    ensures Run(st, [BeginEditCall(index), AutomateCall(index, first)] + Automations(index, rest) + [EndEditCall(index)])
      == Trace(st, [ParameterUpdate(index, first, None, Some(false), None)] + Dragged(index, first, rest)
              + [ParameterUpdate(index, LastOr(first, rest), Some(first), Some(true), None)])
  {
    var open := [BeginEditCall(index), AutomateCall(index, first)] + Automations(index, rest);
    var calls := open + [EndEditCall(index)];
    GestureInProgress(st, index, first, rest);
    assert calls[..|calls| - 1] == open;
    var e := ParamState(index, LastOr(first, rest), first);
    PositionAfterAppend(st.currentlyEditing, e);
    assert RemoveAt(st.currentlyEditing + [e], |st.currentlyEditing|) == st.currentlyEditing;
  }

  /** The transport flags of a VST2 `TimeInfo`. */
  datatype TimeInfoFlag =
    | TempoValid | TimeSigValid | NanosecondsValid | PpqPosValid | BarsValid
    | TransportCycleActive | CyclePosValid | TransportRecording | TransportPlaying

  const AlwaysValid: set<TimeInfoFlag> := {TempoValid, TimeSigValid, NanosecondsValid, PpqPosValid, BarsValid}

  /** The fields of `vst::api::TimeInfo` that are copied from the transport
      (the sample position, computed in floating point, is not modelled). */
  datatype TimeInfo = TimeInfo(
    flags: set<TimeInfoFlag>,
    cycleStartPos: real,
    cycleEndPos: real,
    nanoseconds: real,
    timeSigNumerator: int,
    timeSigDenominator: int,
    tempo: real,
    sampleRate: real,
    ppqPos: real,
    barStartPos: real)

  function TimeInfoFlagsFor(d: ProcessDetails): (flags: set<TimeInfoFlag>)
    ensures AlwaysValid <= flags
    ensures TransportCycleActive in flags <==> d.cycle.Some?
    ensures CyclePosValid in flags <==> d.cycle.Some?
    ensures TransportRecording in flags <==> d.playingState == Recording
    ensures TransportPlaying in flags <==> d.playingState == Playing || d.playingState == OfflineRendering
  {
    var cycle := if d.cycle.Some? then {TransportCycleActive, CyclePosValid} else {};
    var transport :=
      if d.playingState == Recording then {TransportRecording}
      else if IsPlaying(d.playingState) then {TransportPlaying}
      else {};
    AlwaysValid + cycle + transport
  }

  /** `get_time_info`: always a `TimeInfo`. The loop range is reported only
      when there is one (the positions are otherwise left at zero), and a
      recording transport is not also reported as playing. */
  function TimeInfoFor(d: ProcessDetails): (r: Option<TimeInfo>)
    ensures r.Some?
    ensures r.value.flags == TimeInfoFlagsFor(d)
    ensures !(TransportRecording in r.value.flags && TransportPlaying in r.value.flags)
    ensures d.cycle.Some? ==> r.value.cycleStartPos == d.cycle.value.0 && r.value.cycleEndPos == d.cycle.value.1
    ensures d.cycle.None? ==> r.value.cycleStartPos == 0.0 && r.value.cycleEndPos == 0.0
    ensures r.value.timeSigNumerator == AsI32(d.timeSignatureNumerator)
    ensures r.value.timeSigDenominator == AsI32(d.timeSignatureDenominator)
    ensures r.value.tempo == d.tempo && r.value.ppqPos == d.playerTime && r.value.nanoseconds == d.nanos
    ensures r.value.barStartPos == d.barStartPos && r.value.sampleRate == d.sampleRate as real
  {
    var (start, end) := if d.cycle.Some? then d.cycle.value else (0.0, 0.0);
    Some(TimeInfo(TimeInfoFlagsFor(d), start, end, d.nanos,
                  AsI32(d.timeSignatureNumerator), AsI32(d.timeSignatureDenominator),
                  d.tempo, d.sampleRate as real, d.playerTime, d.barStartPos))
  }

  /** With the default transport only the always-valid flags are set. */
  lemma DefaultTimeInfo()
    ensures TimeInfoFor(DefaultProcessDetails()).value.flags == AlwaysValid
    ensures TimeInfoFor(DefaultProcessDetails()).value.timeSigNumerator == 4
  {
  }

  datatype ProcessLevel = Realtime | Offline

  /** `get_process_level`. */
  function ProcessLevelFor(s: PlayingState): (r: ProcessLevel)
    ensures r == Offline <==> s == OfflineRendering
  {
    match s
    case OfflineRendering => Offline
    case _ => Realtime
  }

  /** `can_do`: 1 exactly for the four capabilities the host has. */
  function CanDo(capability: string): (r: int)
    ensures r == 0 || r == 1
    ensures r == 1 <==> capability in {"sendVstTimeInfo", "sendVstEvents", "sendVstMidiEvent", "sizeWindow"}
  {
    match capability
    case "sendVstTimeInfo" => 1
    case "sendVstEvents" => 1
    case "sendVstMidiEvent" => 1
    case "sizeWindow" => 1
    case _ => 0
  }

  datatype Language = English | Spanish | French | German | Italian

  /** `vst::api::HostLanguage`. */
  datatype HostLanguage = HostEnglish | HostGerman | HostFrench | HostItalian | HostSpanish | HostJapanese

  /** `get_language`: an unset language falls back to English. */
  function HostLanguageFor(lang: Option<Language>): (r: HostLanguage)
    ensures r != HostJapanese
    ensures r == HostEnglish <==> lang.None? || lang.value == English
    ensures r == HostSpanish <==> lang == Some(Spanish)
    ensures r == HostFrench <==> lang == Some(French)
    ensures r == HostGerman <==> lang == Some(German)
    ensures r == HostItalian <==> lang == Some(Italian)
  {
    match lang
    case None => HostEnglish
    case Some(English) => HostEnglish
    case Some(Spanish) => HostSpanish
    case Some(French) => HostFrench
    case Some(German) => HostGerman
    case Some(Italian) => HostItalian
  }

  /** `iter().position`, as a loop. */
  method FindEditing(edits: seq<ParamState>, index: int) returns (r: Option<nat>)
    ensures r == Position(edits, index)
  {
    var i := 0;
    while i < |edits|
      invariant 0 <= i <= |edits|
      invariant forall k :: 0 <= k < i ==> edits[k].index != index
    {
      if edits[i].index == index {
        return Some(i);
      }
      i := i + 1;
    }
    return None;
  }

  /** `retain`, as a loop. */
  method RetainOthers(s: seq<int>, x: int) returns (r: seq<int>)
    ensures r == Without(s, x)
  {
    r := [];
    for i := 0 to |s|
      invariant r == Without(s[..i], x)
    {
      assert s[..i + 1][..i] == s[..i];
      if s[i] != x {
        r := r + [s[i]];
      }
    }
    assert s[..|s|] == s;
  }

  /** The shared transport (`Arc<Mutex<ProcessDetails>>`). */
  class DetailsCell {
    var value: ProcessDetails

    constructor (d: ProcessDetails)
      ensures value == d
    {
      value := d;
    }
  }

  datatype HostIdentity = HostIdentity(name: string, version: string, vendor: string, language: Option<Language>)

  /** `Vst2Host`. Each callback runs under the locks the source takes and
      is modelled as atomic. */
  class Vst2Host {
    const host: HostIdentity
    var editorParamsState: EditorParamsState
    /** `plugin_issued_events_producer`. */
    const producer: BoundedQueue<PluginEvent>
    const processDetails: DetailsCell

    ghost predicate Valid()
      reads this, producer
    {
      producer.Valid()
    }

    constructor (host: HostIdentity, producer: BoundedQueue<PluginEvent>, processDetails: DetailsCell)
      ensures this.host == host && this.producer == producer && this.processDetails == processDetails
      ensures editorParamsState == EmptyEditorState
    {
      this.host := host;
      this.producer := producer;
      this.processDetails := processDetails;
      editorParamsState := EmptyEditorState;
    }

    method Automate(index: int, value: Value)
      requires Valid()
      modifies this, producer
      ensures Valid()
      ensures editorParamsState == AutomateStep(old(editorParamsState), index, value).state
      ensures producer.items == Pushed(old(producer.items), producer.capacity,
        ParameterEdit(AutomateStep(old(editorParamsState), index, value).emitted.value))
    {
      var editing := FindEditing(editorParamsState.currentlyEditing, index);
      var initial: Option<Value> := None;
      var edits := editorParamsState.currentlyEditing;
      if index in editorParamsState.justStarted || editing.None? {
        edits := edits + [ParamState(index, value, value)];
      } else {
        var p := editing.value;
        edits := edits[p := edits[p].(current := value)];
        initial := Some(editorParamsState.currentlyEditing[p].initial);
      }
      var kept := RetainOthers(editorParamsState.justStarted, index);
      editorParamsState := EditorParamsState(kept, edits);
      var sent := producer.TryPush(ParameterEdit(ParameterUpdate(index, value, initial, Some(false), None)));
    }

    method BeginEdit(index: int)
      requires Valid()
      modifies this
      ensures Valid()
      ensures editorParamsState == BeginEditStep(old(editorParamsState), index).state
    {
      editorParamsState := editorParamsState.(justStarted := editorParamsState.justStarted + [index]);
    }

    method EndEdit(index: int)
      requires Valid()
      modifies this, producer
      ensures Valid()
      ensures editorParamsState == EndEditStep(old(editorParamsState), index).state
      ensures EndEditStep(old(editorParamsState), index).emitted.None? ==> producer.items == old(producer.items)
      ensures EndEditStep(old(editorParamsState), index).emitted.Some? ==>
        producer.items == Pushed(old(producer.items), producer.capacity,
          ParameterEdit(EndEditStep(old(editorParamsState), index).emitted.value))
    {
      var editing := FindEditing(editorParamsState.currentlyEditing, index);
      if editing.Some? {
        var p := editing.value;
        var param := editorParamsState.currentlyEditing[p];
        editorParamsState := editorParamsState.(currentlyEditing := RemoveAt(editorParamsState.currentlyEditing, p));
        var sent := producer.TryPush(ParameterEdit(EndUpdate(index, param)));
      }
    }

    method UpdateDisplay()
      requires Valid()
      modifies producer
      ensures Valid()
      ensures producer.items == Pushed(old(producer.items), producer.capacity, PluginEvent.UpdateDisplay)
    {
      var sent := producer.TryPush(PluginEvent.UpdateDisplay);
    }

    /** `set_size`: the signed sizes are cast to `usize`. */
    method SetSize(width: int, height: int)
      requires Valid()
      modifies producer
      ensures Valid()
      ensures producer.items == Pushed(old(producer.items), producer.capacity, ResizeWindow(AsUsize(width), AsUsize(height)))
    {
      var sent := producer.TryPush(ResizeWindow(AsUsize(width), AsUsize(height)));
    }

    method IoChanged()
      requires Valid()
      modifies producer
      ensures Valid()
      ensures producer.items == Pushed(old(producer.items), producer.capacity, IOChanged)
    {
      var sent := producer.TryPush(IOChanged);
    }

    method GetTimeInfo() returns (r: Option<TimeInfo>)
      ensures r == TimeInfoFor(processDetails.value)
    {
      r := TimeInfoFor(processDetails.value);
    }

    method GetProcessLevel() returns (r: ProcessLevel)
      ensures r == Offline <==> processDetails.value.playingState == OfflineRendering
    {
      r := ProcessLevelFor(processDetails.value.playingState);
    }

    method GetBlockSize() returns (r: int)
      ensures r == AsI64(processDetails.value.blockSize)
    {
      r := AsI64(processDetails.value.blockSize);
    }

    /** `get_info`: VST version 1 and the host's name and vendor. */
    method GetInfo() returns (version: int, name: string, vendor: string)
      ensures version == 1 && name == host.name && vendor == host.vendor
    {
      return 1, host.name, host.vendor;
    }

    method GetLanguage() returns (r: HostLanguage)
      ensures r == HostLanguageFor(host.language)
    {
      r := HostLanguageFor(host.language);
    }
  }
}
