/** The Rust side of the VST3 format (src/formats/vst3/mod.rs): host
    parameter events are reduced to the last update per parameter, queued for
    the edit controller, and later forwarded to it. Calls into the C++
    wrapper are recorded in logs. */
module Vst3Format {
  import opened Common
  import opened Events
  import opened Ring

  const PARAM_RING_CAPACITY: nat := 512

  predicate IsUpdateFor(e: HostEvent, id: int) {
    e.eventType.Parameter? && e.eventType.param.parameterId == id
  }

  /** The last Parameter event for `id` in input order, if there is one. */
  function LastUpdateFor(events: seq<HostEvent>, id: int): (r: Option<ParameterUpdate>)
    ensures r.Some? ==> r.value.parameterId == id
    ensures r.Some? <==> exists i :: 0 <= i < |events| && IsUpdateFor(events[i], id)
    ensures r.Some? ==>
      exists i :: (0 <= i < |events| && events[i].eventType == Parameter(r.value)
        && forall j :: i < j < |events| ==> !IsUpdateFor(events[j], id))
  {
    if events == [] then None
    else if IsUpdateFor(Last(events), id) then Some(Last(events).eventType.param)
    else LastUpdateFor(events[..|events| - 1], id)
  }

  /** Only the parameter id and the input order matter: MIDI events and the
      block times of the events are never consulted. */
  lemma {:induction false} LastUpdateIgnoresMidiAndTimes(events: seq<HostEvent>, others: seq<HostEvent>, id: int)
    requires Filter(events, IsParameter) == Filter(others, IsParameter)
    ensures LastUpdateFor(events, id) == LastUpdateFor(Filter(others, IsParameter), id)
    decreases |events|
  {
    if events != [] {
      var init := events[..|events| - 1];
      var e := Last(events);
      assert events == init + [e];
      FilterAppend(init, [e], IsParameter);
      LastUpdateOfFiltered(init, id);
      LastUpdateOfFiltered(events, id);
    }
  }

  lemma {:induction false} LastUpdateOfFiltered(events: seq<HostEvent>, id: int)
    ensures LastUpdateFor(Filter(events, IsParameter), id) == LastUpdateFor(events, id)
  {
    if events != [] {
      var init := events[..|events| - 1];
      LastUpdateOfFiltered(init, id);
      var f := Filter(init, IsParameter);
      if IsParameter(Last(events)) {
        assert Filter(events, IsParameter) == f + [Last(events)];
        assert (f + [Last(events)])[..|f|] == f;
      }
    }
  }

  /** `last_param_updates`. The updates come out of a hash map, so their
      order is left open: each is the last update for its id, ids are
      distinct, and every id that has a Parameter event is present. The
      model walks the map's keys in first-insertion order, which is one of
      the orders a hash map may produce. */
  method LastParamUpdates(events: seq<HostEvent>) returns (updates: seq<ParameterUpdate>)
    ensures forall u :: u in updates <==> LastUpdateFor(events, u.parameterId) == Some(u)
    ensures forall id :: LastUpdateFor(events, id).Some? ==> LastUpdateFor(events, id).value in updates
    ensures forall i, j :: 0 <= i < j < |updates| ==> updates[i].parameterId != updates[j].parameterId
  {
    var latest, keys := LatestPerId(events);
    updates := ValuesOf(latest, keys);
    forall id | LastUpdateFor(events, id).Some?
      ensures LastUpdateFor(events, id).value in updates
    {
      var j :| 0 <= j < |keys| && keys[j] == id;
      assert updates[j] == latest[id];
    }
    forall u | u in updates
      ensures LastUpdateFor(events, u.parameterId) == Some(u)
    {
      var j :| 0 <= j < |updates| && updates[j] == u;
      assert LastUpdateFor(events, keys[j]) == Some(u);
    }
  }

  /** The map built by the loop of `last_param_updates`, together with its
      keys in first-insertion order. */
  method LatestPerId(events: seq<HostEvent>) returns (latest: map<int, ParameterUpdate>, keys: seq<int>)
    ensures forall id :: id in latest <==> LastUpdateFor(events, id).Some?
    ensures forall id :: id in latest ==> LastUpdateFor(events, id) == Some(latest[id])
    ensures forall id :: id in latest <==> id in keys
    ensures forall j :: 0 <= j < |keys| ==> keys[j] in latest
    ensures forall a, b :: 0 <= a < b < |keys| ==> keys[a] != keys[b]
  {
    latest := map[];
    keys := [];
    for i := 0 to |events|
      invariant forall id :: id in latest <==> LastUpdateFor(events[..i], id).Some?
      invariant forall id :: id in latest ==> LastUpdateFor(events[..i], id) == Some(latest[id])
      invariant forall id :: id in latest <==> id in keys
      invariant forall j :: 0 <= j < |keys| ==> keys[j] in latest
      invariant forall a, b :: 0 <= a < b < |keys| ==> keys[a] != keys[b]
    {
      assert events[..i + 1][..i] == events[..i];
      if events[i].eventType.Parameter? {
        var param := events[i].eventType.param;
        if param.parameterId !in latest {
          keys := keys + [param.parameterId];
        }
        latest := latest[param.parameterId := param];
      }
    }
    assert events[..|events|] == events;
  }

  /** The map's values, read in the order of `keys`. */
  method ValuesOf(latest: map<int, ParameterUpdate>, keys: seq<int>) returns (values: seq<ParameterUpdate>)
    requires forall j :: 0 <= j < |keys| ==> keys[j] in latest
    ensures |values| == |keys|
    ensures forall j :: 0 <= j < |keys| ==> values[j] == latest[keys[j]]
  {
    values := [];
    for k := 0 to |keys|
      invariant |values| == k
      invariant forall j :: 0 <= j < k ==> values[j] == latest[keys[j]]
    {
      values := values + [latest[keys[k]]];
    }
  }

  predicate Forwardable(u: ParameterUpdate) {
    !u.currentValue.NaN?
  }

  /** The `set_param_in_edit_controller` calls that draining `us` makes,
      oldest first: one per update whose value is not NaN. */
  function Forwarded(us: seq<ParameterUpdate>): (r: seq<(int, Value)>)
    ensures |r| <= |us|
  {
    if us == [] then []
    else
      var u := Last(us);
      Forwarded(us[..|us| - 1]) + (if Forwardable(u) then [(u.parameterId, u.currentValue)] else [])
  }

  /** Forwarding keeps FIFO order and drops exactly the NaN updates: the
      calls are the non-NaN updates, in order, as (id, value) pairs. */
  lemma {:induction false} ForwardedIsFiltered(us: seq<ParameterUpdate>)
    ensures |Forwarded(us)| == |Filter(us, Forwardable)|
    ensures forall i :: 0 <= i < |Forwarded(us)| ==>
      Forwarded(us)[i] == (Filter(us, Forwardable)[i].parameterId, Filter(us, Forwardable)[i].currentValue)
  {
    if us != [] {
      var init := us[..|us| - 1];
      ForwardedIsFiltered(init);
      if Forwardable(Last(us)) {
        assert Filter(us, Forwardable) == Filter(init, Forwardable) + [Last(us)];
      }
    }
  }

  lemma ForwardedSnoc(us: seq<ParameterUpdate>, u: ParameterUpdate)
    ensures Forwarded(us + [u]) == Forwarded(us) + (if u.currentValue.NaN? then [] else [(u.parameterId, u.currentValue)])
  {
    assert (us + [u])[..|us|] == us;
  }

  /** No NaN value ever reaches the edit controller. */
  lemma {:induction false} ForwardedNeverNaN(us: seq<ParameterUpdate>)
    ensures forall c :: c in Forwarded(us) ==> !c.1.NaN?
  {
    if us != [] {
      ForwardedNeverNaN(us[..|us| - 1]);
    }
  }

  /** What the wrapper's `get_data` hands back: a null pointer, or a buffer
      and the length it reports. */
  datatype DataReply = NullData | Data(bytes: seq<u8>, len: int)

  datatype PresetRead = PresetRead(result: Result<seq<u8>, string>, streamFreed: bool)

  /** `get_preset_data`: an error for a null pointer (the stream is then not
      released), otherwise a copy of the first `len` bytes, after which the
      stream is released. */
  function GetPresetData(reply: DataReply): (r: PresetRead)
    requires reply.Data? ==> 0 <= reply.len <= |reply.bytes|
    ensures r.result.Err? <==> reply.NullData?
    ensures r.streamFreed <==> reply.Data?
    ensures r.result.Ok? ==> |r.result.value| == reply.len && r.result.value <= reply.bytes
  {
    match reply
    case NullData => PresetRead(Err("Failed to get preset data"), false)
    case Data(bytes, len) => PresetRead(Ok(bytes[..len]), true)
  }

  /** The `Vst3` plugin object. */
  class Vst3 {
    /** `param_updates_for_edit_controller`. */
    const paramUpdates: BoundedQueue<ParameterUpdate>
    /** `set_param_in_edit_controller(id, value)` calls, oldest first. */
    var controllerCalls: seq<(int, Value)>

    ghost predicate Valid()
      reads this, paramUpdates
    {
      paramUpdates.capacity == PARAM_RING_CAPACITY && paramUpdates.Valid()
    }

    constructor ()
      ensures Valid() && fresh(paramUpdates)
      ensures paramUpdates.items == [] && controllerCalls == []
    {
      paramUpdates := new BoundedQueue(PARAM_RING_CAPACITY);
      controllerCalls := [];
    }

    /** `process`: queues the last update per parameter id; updates that do
        not fit are dropped. Audio buffers and transport are not used. */
    method Process(events: seq<HostEvent>) returns (ghost pushed: seq<ParameterUpdate>)
      requires Valid()
      modifies paramUpdates
      ensures Valid()
      ensures paramUpdates.items == old(paramUpdates.items) + pushed
      ensures forall u :: u in pushed ==> LastUpdateFor(events, u.parameterId) == Some(u)
      ensures forall i, j :: 0 <= i < j < |pushed| ==> pushed[i].parameterId != pushed[j].parameterId
      ensures |paramUpdates.items| == PARAM_RING_CAPACITY
        || forall id :: LastUpdateFor(events, id).Some? ==> LastUpdateFor(events, id).value in pushed
    {
      var updates := LastParamUpdates(events);
      pushed := [];
      for i := 0 to |updates|
        invariant paramUpdates.Valid()
        invariant paramUpdates.items == old(paramUpdates.items) + pushed
        invariant |pushed| <= i && pushed == updates[..|pushed|]
        invariant |pushed| < i ==> |paramUpdates.items| == PARAM_RING_CAPACITY
      {
        var ok := paramUpdates.TryPush(updates[i]);
        if ok {
          pushed := pushed + [updates[i]];
        }
      }
      assert |pushed| < |updates| || pushed == updates;
    }

    /** `editor_updates`: drains the ring, forwarding the non-NaN updates
        to the edit controller in FIFO order. */
    method EditorUpdates()
      requires Valid()
      modifies this, paramUpdates
      ensures Valid() && paramUpdates.items == []
      ensures controllerCalls == old(controllerCalls) + Forwarded(old(paramUpdates.items))
    {
      ghost var drained: seq<ParameterUpdate> := [];
      var next := paramUpdates.TryPop();
      while next.Some?
        invariant Valid()
        invariant next.Some? ==> old(paramUpdates.items) == drained + [next.value] + paramUpdates.items
        invariant next.None? ==> old(paramUpdates.items) == drained && paramUpdates.items == []
        invariant controllerCalls == old(controllerCalls) + Forwarded(drained)
        decreases |paramUpdates.items| + (if next.Some? then 1 else 0)
      {
        var update := next.value;
        if !update.currentValue.NaN? {
          controllerCalls := controllerCalls + [(update.parameterId, update.currentValue)];
        }
        ForwardedSnoc(drained, update);
        drained := drained + [update];
        next := paramUpdates.TryPop();
      }
    }

    method GetLatency() returns (samples: nat)
      ensures samples == 0
    {
      samples := 0;
    }

    /** `suspend` and `resume` do nothing for VST3. */
    method Suspend()
      ensures unchanged(this) && unchanged(paramUpdates)
    {
    }

    method Resume()
      ensures unchanged(this) && unchanged(paramUpdates)
    {
    }
  }
}
