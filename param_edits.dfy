/** Parameter edits made in a VST3 plugin's own editor
    (vst3-wrapper/source/vst3wrapper.cpp): the component handler tracks the
    gestures in progress and reports each change to the host, tagged with
    the parameter index that `get_parameter` recorded for its id. The
    plug frame reports editor resizes. Each call is atomic (the mutex is
    not modelled). */
module ParamEdits {
  import opened Common
  import opened Bindings

  /** `kResultOk` / `kResultFalse`. */
  datatype TResult = ResultOk | ResultFalse

  /** `std::unordered_map<ParamID, int> parameter_indicies`, owned by the
      plugin instance and read by the component handler. */
  class ParameterIndexTable {
    var entries: map<nat, int>

    constructor ()
      ensures entries == map[]
    {
      entries := map[];
    }

    method Record(paramId: nat, index: int)
      modifies this
      ensures entries == old(entries)[paramId := index]
    {
      entries := entries[paramId := index];
    }
  }

  /** The index lookup of `send_param_change_event`: the `int32_t` id is
      looked up as a ParamID; -1 when there is no table or no entry. */
  function ResolveIndex(table: Option<map<nat, int>>, id: int): (r: int)
    ensures table.Some? && AsU32(id) in table.value ==> r == table.value[AsU32(id)]
    ensures table.None? || AsU32(id) !in table.value ==> r == -1
  {
    if table.Some? && AsU32(id) in table.value then table.value[AsU32(id)] else -1
  }

  /** A ParamID survives the trip through the `int32_t` parameter of
      `send_param_change_event` and back. */
  lemma ParamIdRoundTrip(paramId: nat)
    requires paramId < TWO_32
    ensures AsU32(AsI32(paramId)) == paramId
  {
    var s := AsI32(paramId);
    assert s == paramId || s == paramId - TWO_32;
  }

  /** Once `get_parameter` has recorded `index` for `paramId`, every change
      reported for that parameter carries `index`, and the indices of the
      other parameters are what they were. */
  lemma RecordedIndexResolves(entries: map<nat, int>, paramId: nat, index: int, id: int)
    requires paramId < TWO_32
    ensures ResolveIndex(Some(entries[paramId := index]), AsI32(paramId)) == index
    ensures AsU32(id) != paramId ==> ResolveIndex(Some(entries[paramId := index]), id) == ResolveIndex(Some(entries), id)
  {
    ParamIdRoundTrip(paramId);
  }

  /** What one handler call reports: the `send_param_change_event`
      arguments other than the index table. */
  datatype Emission = Emission(id: int, current: Value, initial: Value, endEdit: bool)

  /** The event `send_param_change_event` sends for `m`. */
  function EmissionEvent(table: Option<map<nat, int>>, m: Emission): FfiPluginEvent {
    FfiParameterChange(FfiParameterUpdate(m.id, ResolveIndex(table, m.id), m.current, m.initial, m.endEdit))
  }

  /** Whether entry `e` belongs to ParamID `id`; the stored `int` is
      compared as an unsigned ParamID. */
  predicate Matches(e: ParameterEditState, id: nat) {
    AsU32(e.id) == id
  }

  /** Position of the first entry for `id`. */
  function IndexOf(edits: seq<ParameterEditState>, id: nat): (r: Option<nat>)
    ensures r.Some? ==> r.value < |edits| && Matches(edits[r.value], id)
    ensures r.Some? ==> forall j :: 0 <= j < r.value ==> !Matches(edits[j], id)
    ensures r.None? <==> forall j :: 0 <= j < |edits| ==> !Matches(edits[j], id)
  {
    if edits == [] then None
    else if Matches(edits[0], id) then Some(0)
    else match IndexOf(edits[1..], id)
      case None => None
      case Some(k) => Some(k + 1)
  }

  /** The gesture in progress for `id`, if any. */
  function Tracked(edits: seq<ParameterEditState>, id: nat): Option<ParameterEditState> {
    match IndexOf(edits, id)
    case None => None
    case Some(k) => Some(edits[k])
  }

  /** The handler's invariant: at most one gesture per parameter. */
  ghost predicate OnePerId(edits: seq<ParameterEditState>) {
    forall i, j :: 0 <= i < j < |edits| ==> AsU32(edits[i].id) != AsU32(edits[j].id)
  }

  datatype EditStep = EditStep(edits: seq<ParameterEditState>, emitted: Emission)

  /** `performEdit` once the edit state is attached: a tracked gesture gets
      the new current value and is reported with its initial value; an
      untracked id starts a gesture whose initial value is `v`. */
  function PerformEditStep(edits: seq<ParameterEditState>, id: nat, v: Value): EditStep {
    match IndexOf(edits, id)
    case Some(k) =>
      EditStep(edits[k := edits[k].(currentValue := v)], Emission(AsI32(id), v, edits[k].initialValue, false))
    case None =>
      EditStep(edits + [ParameterEditState(AsI32(id), v, v, false)], Emission(AsI32(id), v, v, false))
  }

  /** `endEdit`: a tracked gesture is reported as finished with its current
      and initial values and removed; for an untracked id the id is
      reported with NaN values and nothing else changes. */
  function EndEditStep(edits: seq<ParameterEditState>, id: nat): EditStep {
    match IndexOf(edits, id)
    case Some(k) =>
      EditStep(edits[..k] + edits[k + 1..], Emission(edits[k].id, edits[k].currentValue, edits[k].initialValue, true))
    case None =>
      EditStep(edits, Emission(AsI32(id), NaN, NaN, true))
  }

  /** `IndexOf` is determined by the first-match property. */
  lemma {:induction false} IndexOfIs(edits: seq<ParameterEditState>, id: nat, k: nat)
    requires k < |edits| && Matches(edits[k], id)
    requires forall j :: 0 <= j < k ==> !Matches(edits[j], id)
    ensures IndexOf(edits, id) == Some(k)
  {
    if k > 0 {
      var tail := edits[1..];
      forall j | 0 <= j < k - 1 ensures !Matches(tail[j], id) {
        assert tail[j] == edits[j + 1];
      }
      assert tail[k - 1] == edits[k];
      IndexOfIs(tail, id, k - 1);
    }
  }

  lemma NewEntryIsFound(edits: seq<ParameterEditState>, e: ParameterEditState, id: nat)
    requires IndexOf(edits, id).None? && Matches(e, id)
    ensures IndexOf(edits + [e], id) == Some(|edits|)
  {
    var s := edits + [e];
    forall j | 0 <= j < |edits| ensures !Matches(s[j], id) {
      assert s[j] == edits[j];
    }
    IndexOfIs(s, id, |edits|);
  }

  /** `performEdit` changes only the gesture for `id`: that gesture ends up
      with current value `v` and keeps its initial value (or starts at
      `v`), the report carries exactly those values and is not an end of
      edit, every other parameter's gesture is unchanged, and there is
      still at most one gesture per parameter. */
  lemma PerformEditUpdatesOnlyId(edits: seq<ParameterEditState>, id: nat, v: Value, other: nat)
    requires id < TWO_32 && OnePerId(edits)
    ensures var r := PerformEditStep(edits, id, v);
      && Tracked(r.edits, id) == Some(match Tracked(edits, id)
           case Some(e) => e.(currentValue := v)
           case None => ParameterEditState(AsI32(id), v, v, false))
      && r.emitted == Emission(AsI32(id), v, Tracked(r.edits, id).value.initialValue, false)
      && (other != id ==> Tracked(r.edits, other) == Tracked(edits, other))
      && OnePerId(r.edits)
  {
    var r := PerformEditStep(edits, id, v);
    ParamIdRoundTrip(id);
    match IndexOf(edits, id)
    case Some(k) =>
      assert r.edits == edits[k := edits[k].(currentValue := v)];
      forall j | 0 <= j < k ensures !Matches(r.edits[j], id) {
        assert r.edits[j] == edits[j];
      }
      IndexOfIs(r.edits, id, k);
      if other != id {
        SameIndexOfAfterUpdate(edits, k, v, other);
      }
    case None =>
      var e := ParameterEditState(AsI32(id), v, v, false);
      NewEntryIsFound(edits, e, id);
      if other != id {
        OtherAfterAppend(edits, e, id, other);
      }
  }

  lemma SameIndexOfAfterUpdate(edits: seq<ParameterEditState>, k: nat, v: Value, other: nat)
    requires k < |edits| && !Matches(edits[k], other)
    ensures Tracked(edits[k := edits[k].(currentValue := v)], other) == Tracked(edits, other)
  {
    var s := edits[k := edits[k].(currentValue := v)];
    forall j | 0 <= j < |edits| ensures Matches(s[j], other) <==> Matches(edits[j], other) {
      if j != k {
        assert s[j] == edits[j];
      }
    }
    match IndexOf(edits, other)
    case None =>
    case Some(m) =>
      IndexOfIs(s, other, m);
  }

  lemma OtherAfterAppend(edits: seq<ParameterEditState>, e: ParameterEditState, id: nat, other: nat)
    requires Matches(e, id) && other != id
    ensures Tracked(edits + [e], other) == Tracked(edits, other)
  {
    var s := edits + [e];
    forall j | 0 <= j < |edits| ensures s[j] == edits[j] {
    }
    match IndexOf(edits, other)
    case None =>
      assert !Matches(s[|edits|], other);
    case Some(m) =>
      IndexOfIs(s, other, m);
  }

  /** Every entry except those for `id`. */
  function Others(edits: seq<ParameterEditState>, id: nat): seq<ParameterEditState> {
    Filter(edits, (e: ParameterEditState) => !Matches(e, id))
  }

  /** `endEdit` on a tracked id reports its current and initial values as
      an end of edit and removes exactly that gesture, keeping the others
      in their order; on an untracked id it reports the id with NaN values
      and removes nothing. */
  lemma EndEditRemovesOnlyId(edits: seq<ParameterEditState>, id: nat)
    requires OnePerId(edits)
    ensures var r := EndEditStep(edits, id);
      && r.edits == Others(edits, id)
      && r.emitted == (match Tracked(edits, id)
           case Some(e) => Emission(e.id, e.currentValue, e.initialValue, true)
           case None => Emission(AsI32(id), NaN, NaN, true))
  {
    var notId := (e: ParameterEditState) => !Matches(e, id);
    match IndexOf(edits, id)
    case None =>
      FilterKeepsAll(edits, notId);
    case Some(k) =>
      var before, after := edits[..k], edits[k + 1..];
      assert edits == before + [edits[k]] + after;
      FilterAppend(before + [edits[k]], after, notId);
      FilterAppend(before, [edits[k]], notId);
      assert Filter([edits[k]], notId) == [] by {
        assert [edits[k]][..0] == [];
      }
      FilterKeepsAll(before, notId);
      forall i | 0 <= i < |after| ensures notId(after[i]) {
        assert after[i] == edits[k + 1 + i];
      }
      FilterKeepsAll(after, notId);
  }

  /** A gesture begun and ended in the editor: a first `performEdit` with
      `v` on an untracked parameter, then `endEdit`, reports `v` as both
      current and initial value and leaves the gestures as they were. */
  lemma EditThenEnd(edits: seq<ParameterEditState>, id: nat, v: Value)
    requires id < TWO_32 && OnePerId(edits) && Tracked(edits, id).None?
    ensures var started := PerformEditStep(edits, id, v);
      && started.emitted == Emission(AsI32(id), v, v, false)
      && EndEditStep(started.edits, id) == EditStep(edits, Emission(AsI32(id), v, v, true))
  {
    var e := ParameterEditState(AsI32(id), v, v, false);
    ParamIdRoundTrip(id);
    NewEntryIsFound(edits, e, id);
    assert (edits + [e])[..|edits|] == edits;
    assert (edits + [e])[|edits| + 1..] == [];
  }

  /** A run of `performEdit(id, v)` calls, one per value in `vs`: the
      gestures afterwards and what each call reported, in order. */
  function PerformEdits(edits: seq<ParameterEditState>, id: nat, vs: seq<Value>): (r: (seq<ParameterEditState>, seq<Emission>))
    ensures |r.1| == |vs|
    decreases |vs|
  {
    if vs == [] then (edits, [])
    else
      var step := PerformEditStep(edits, id, vs[0]);
      var rest := PerformEdits(step.edits, id, vs[1..]);
      (rest.0, [step.emitted] + rest.1)
  }

  /** Dragging a gesture that sits at the end of the list: each
      `performEdit` reports the gesture's initial value, and the entry ends
      up holding the last value. */
  lemma {:induction false} DragTracked(edits: seq<ParameterEditState>, id: nat, current: Value, initial: Value, vs: seq<Value>)
    requires id < TWO_32 && IndexOf(edits, id).None?
    ensures var r := PerformEdits(edits + [ParameterEditState(AsI32(id), initial, current, false)], id, vs);
      && r.0 == edits + [ParameterEditState(AsI32(id), initial, if vs == [] then current else Last(vs), false)]
      && forall k :: 0 <= k < |vs| ==> r.1[k] == Emission(AsI32(id), vs[k], initial, false)
    decreases |vs|
  {
    if vs != [] {
      var e := ParameterEditState(AsI32(id), initial, current, false);
      ParamIdRoundTrip(id);
      NewEntryIsFound(edits, e, id);
      var s := edits + [e];
      var moved := e.(currentValue := vs[0]);
      assert s[|edits| := s[|edits|].(currentValue := vs[0])] == edits + [moved];
      var step := PerformEditStep(s, id, vs[0]);
      assert step == EditStep(edits + [moved], Emission(AsI32(id), vs[0], initial, false));
      DragTracked(edits, id, vs[0], initial, vs[1..]);
      var rest := PerformEdits(edits + [moved], id, vs[1..]);
      var r := PerformEdits(s, id, vs);
      assert r == (rest.0, [step.emitted] + rest.1);
      forall k | 0 < k < |vs| ensures r.1[k] == Emission(AsI32(id), vs[k], initial, false) {
        assert r.1[k] == rest.1[k - 1];
        assert vs[1..][k - 1] == vs[k];
      }
      if vs[1..] != [] {
        assert Last(vs[1..]) == Last(vs);
      }
    }
  }

  /** `endEdit` on a gesture appended to a list without one for `id`
      reports it and gives back the list. */
  lemma EndAfterAppend(edits: seq<ParameterEditState>, id: nat, f: ParameterEditState)
    requires id < TWO_32 && IndexOf(edits, id).None? && f.id == AsI32(id)
    ensures EndEditStep(edits + [f], id) == EditStep(edits, Emission(f.id, f.currentValue, f.initialValue, true))
  {
    ParamIdRoundTrip(id);
    NewEntryIsFound(edits, f, id);
    assert (edits + [f])[..|edits|] == edits;
    assert (edits + [f])[|edits| + 1..] == [];
  }

  /** A whole gesture made in the editor on a parameter that is not being
      edited: `performEdit` with each of `v1 … vn`, then `endEdit`. Every
      `performEdit` is reported with its own value, the first value as
      initial value, and not as an end of edit; `endEdit` reports `vn` and
      `v1` as the end of the gesture, and the gestures are as they were
      before. Without any `performEdit`, `endEdit` reports NaN values. */
  lemma EditGesture(edits: seq<ParameterEditState>, id: nat, vs: seq<Value>)
    requires id < TWO_32 && Tracked(edits, id).None?
    ensures var r := PerformEdits(edits, id, vs);
      && (forall k :: 0 <= k < |vs| ==> r.1[k] == Emission(AsI32(id), vs[k], vs[0], false))
      && EndEditStep(r.0, id) == EditStep(edits, if vs == [] then Emission(AsI32(id), NaN, NaN, true)
           else Emission(AsI32(id), Last(vs), vs[0], true))
  {
    if vs != [] {
      var e := ParameterEditState(AsI32(id), vs[0], vs[0], false);
      var step := PerformEditStep(edits, id, vs[0]);
      assert step == EditStep(edits + [e], Emission(AsI32(id), vs[0], vs[0], false));
      DragTracked(edits, id, vs[0], vs[0], vs[1..]);
      var rest := PerformEdits(edits + [e], id, vs[1..]);
      var r := PerformEdits(edits, id, vs);
      assert r == (rest.0, [step.emitted] + rest.1);
      forall k | 0 < k < |vs| ensures r.1[k] == Emission(AsI32(id), vs[k], vs[0], false) {
        assert r.1[k] == rest.1[k - 1];
        assert vs[1..][k - 1] == vs[k];
      }
      var last := if vs[1..] == [] then vs[0] else Last(vs[1..]);
      assert last == Last(vs);
      EndAfterAppend(edits, id, ParameterEditState(AsI32(id), vs[0], last, false));
    }
  }

  /** `IComponentHandler` as the wrapper implements it. */
  class ComponentHandler {
    /** `param_edits` and `param_edits_mutex` were supplied; the wrapper
        always supplies both. */
    const attached: bool
    /** `*param_edits`. */
    var edits: seq<ParameterEditState>
    /** `plugin_sent_events_producer`. */
    const sink: EventSink
    /** `parameter_indicies`, possibly null. */
    const indices: ParameterIndexTable?

    ghost predicate Valid()
      reads this
    {
      OnePerId(edits)
    }

    constructor (attached: bool, sink: EventSink, indices: ParameterIndexTable?)
      ensures Valid() && this.attached == attached && this.sink == sink && this.indices == indices
      ensures edits == []
    {
      this.attached := attached;
      this.sink := sink;
      this.indices := indices;
      edits := [];
    }

    function IndexMap(): Option<map<nat, int>>
      reads this, indices
    {
      if indices == null then None else Some(indices.entries)
    }

    /** `beginEdit` does nothing. */
    method BeginEdit(id: nat) returns (r: TResult)
      ensures r == ResultOk
    {
      r := ResultOk;
    }

    method PerformEdit(id: nat, v: Value) returns (r: TResult)
      requires id < TWO_32 && Valid()
      modifies this, sink
      ensures Valid()
      ensures !attached ==> r == ResultFalse && edits == old(edits) && sink.events == old(sink.events)
      ensures attached ==> r == ResultOk
      ensures attached ==> edits == PerformEditStep(old(edits), id, v).edits
      ensures attached ==> sink.events == old(sink.events) + [EmissionEvent(IndexMap(), PerformEditStep(old(edits), id, v).emitted)]
    {
      if !attached {
        return ResultFalse;
      }
      PerformEditUpdatesOnlyId(edits, id, v, id);
      var i := 0;
      while i < |edits|
        invariant 0 <= i <= |edits|
        invariant forall j :: 0 <= j < i ==> !Matches(edits[j], id)
      {
        if AsU32(edits[i].id) == id {
          var initial := edits[i].initialValue;
          edits := edits[i := edits[i].(currentValue := v)];
          sink.Send(EmissionEvent(IndexMap(), Emission(AsI32(id), v, initial, false)));
          return ResultOk;
        }
        i := i + 1;
      }
      edits := edits + [ParameterEditState(AsI32(id), v, v, false)];
      sink.Send(EmissionEvent(IndexMap(), Emission(AsI32(id), v, v, false)));
      r := ResultOk;
    }

    /** `endEdit` locks the mutex without checking it, so it needs the
        edit state to be attached. */
    method EndEdit(id: nat) returns (r: TResult)
      requires attached && Valid()
      modifies this, sink
      ensures Valid() && r == ResultOk
      ensures edits == EndEditStep(old(edits), id).edits
      ensures sink.events == old(sink.events) + [EmissionEvent(IndexMap(), EndEditStep(old(edits), id).emitted)]
    {
      EndEditKeepsOnePerId(edits, id);
      var i := 0;
      while i < |edits|
        invariant 0 <= i <= |edits|
        invariant forall j :: 0 <= j < i ==> !Matches(edits[j], id)
      {
        var param := edits[i];
        if AsU32(param.id) == id {
          sink.Send(EmissionEvent(IndexMap(), Emission(param.id, param.currentValue, param.initialValue, true)));
          edits := edits[..i] + edits[i + 1..];
          return ResultOk;
        }
        i := i + 1;
      }
      sink.Send(EmissionEvent(IndexMap(), Emission(AsI32(id), NaN, NaN, true)));
      r := ResultOk;
    }

    /** `restartComponent` reports an IO change whatever the flags. */
    method RestartComponent(flags: int) returns (r: TResult)
      modifies sink
      ensures r == ResultOk && sink.events == old(sink.events) + [FfiIOChanged]
    {
      sink.Send(FfiIOChanged);
      r := ResultOk;
    }
  }

  lemma EndEditKeepsOnePerId(edits: seq<ParameterEditState>, id: nat)
    requires OnePerId(edits)
    ensures OnePerId(EndEditStep(edits, id).edits)
  {
    if IndexOf(edits, id).Some? {
      var k := IndexOf(edits, id).value;
      var r := edits[..k] + edits[k + 1..];
      forall i, j | 0 <= i < j < |r| ensures AsU32(r[i].id) != AsU32(r[j].id) {
        var i' := if i < k then i else i + 1;
        var j' := if j < k then j else j + 1;
        assert r[i] == edits[i'] && r[j] == edits[j'];
      }
    }
  }

  /** `ViewRect`; `getWidth` and `getHeight` are `right - left` and
      `bottom - top`. */
  datatype ViewRect = ViewRect(left: int, top: int, right: int, bottom: int)

  /** The event `resizeView` sends: the signed size cast to `uintptr_t`,
      so a negative size becomes a size near 2^64. */
  function ResizeEvent(rect: ViewRect): (e: FfiPluginEvent)
    ensures e.FfiResizeWindow?
    ensures rect.left <= rect.right < rect.left + TWO_64 ==> e.width == rect.right - rect.left
    ensures rect.top <= rect.bottom < rect.top + TWO_64 ==> e.height == rect.bottom - rect.top
    ensures -TWO_64 < rect.right - rect.left < 0 ==> e.width == TWO_64 + (rect.right - rect.left)
    ensures -TWO_64 < rect.bottom - rect.top < 0 ==> e.height == TWO_64 + (rect.bottom - rect.top)
  {
    FfiResizeWindow(AsUsize(rect.right - rect.left), AsUsize(rect.bottom - rect.top))
  }

  /** `IPlugFrame` as the wrapper implements it. */
  class PlugFrame {
    const sink: EventSink

    constructor (sink: EventSink)
      ensures this.sink == sink
    {
      this.sink := sink;
    }

    method ResizeView(newSize: ViewRect) returns (r: TResult)
      modifies sink
      ensures r == ResultOk && sink.events == old(sink.events) + [ResizeEvent(newSize)]
    {
      sink.Send(ResizeEvent(newSize));
      r := ResultOk;
    }
  }
}
