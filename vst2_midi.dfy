/** Preparing host MIDI events for a VST2 plugin
    (`process_vst2_midi_events_list` and `midi_event_to_vst2_event` in
    src/formats/vst2.rs): the events are sorted by block time, keeping the
    order of events with equal times, the MIDI events are converted, and the
    converted events are put in a fixed block of 100 slots. */
module Vst2Midi {
  import opened Common
  import opened Events

  const MAX_EVENTS: nat := 100

  /** The fields of `vst::api::MidiEvent` that the adapter sets (the event
      type is always MIDI and the byte size and reserved fields are 0). */
  datatype Vst2MidiEvent = Vst2MidiEvent(
    deltaFrames: int,
    noteLength: int,
    noteOffset: int,
    midiData: MidiBytes,
    detune: int,
    noteOffVelocity: int)

  /** `as i8` on a float: truncation toward zero, saturating at the ends
      of the range. */
  function TruncToI8(x: real): (r: int)
    ensures -128 <= r <= 127
    ensures x >= 127.0 ==> r == 127
    ensures x <= -128.0 ==> r == -128
    ensures 0.0 <= x < 127.0 ==> r as real <= x < r as real + 1.0
    ensures -128.0 < x < 0.0 ==> r as real - 1.0 < x <= r as real
  {
    if x >= 127.0 then 127
    else if x <= -128.0 then -128
    else if x >= 0.0 then x.Floor
    else -((-x).Floor)
  }

  /** `midi_event_to_vst2_event`: `None` for a parameter event. */
  function MidiEventToVst2Event(e: HostEvent): (r: Option<Vst2MidiEvent>)
    ensures r.Some? <==> e.eventType.Midi?
    ensures r.Some? ==>
      && r.value.deltaFrames == AsI32(e.blockTime)
      && r.value.noteLength == AsI32(e.eventType.midi.noteLength)
      && r.value.midiData == e.eventType.midi.midiData
      && r.value.detune == TruncToI8(e.eventType.midi.detune)
      && r.value.noteOffset == 0 && r.value.noteOffVelocity == 0
    ensures r.Some? && e.blockTime < 0x8000_0000 ==> r.value.deltaFrames == e.blockTime
  {
    match e.eventType
    case Parameter(_) => None
    case Midi(m) =>
      Some(Vst2MidiEvent(AsI32(e.blockTime), AsI32(m.noteLength), 0, m.midiData, TruncToI8(m.detune), 0))
  }

  predicate SortedByTime(s: seq<HostEvent>) {
    forall i, j :: 0 <= i < j < |s| ==> s[i].blockTime <= s[j].blockTime
  }

  /** `x` placed after every element of `s` whose time is not later than
      its own. */
  function Insert(s: seq<HostEvent>, x: HostEvent): (r: seq<HostEvent>)
    ensures |r| == |s| + 1
  {
    if s == [] || Last(s).blockTime <= x.blockTime then s + [x]
    else Insert(s[..|s| - 1], x) + [Last(s)]
  }

  /** `sort_by(|a, b| a.block_time.cmp(&b.block_time))`, a stable sort. */
  function SortByTime(s: seq<HostEvent>): (r: seq<HostEvent>)
    ensures |r| == |s|
  {
    if s == [] then [] else Insert(SortByTime(s[..|s| - 1]), Last(s))
  }

  lemma {:induction false} InsertPermutes(s: seq<HostEvent>, x: HostEvent)
    ensures multiset(Insert(s, x)) == multiset(s) + multiset{x}
  {
    if !(s == [] || Last(s).blockTime <= x.blockTime) {
      var init := s[..|s| - 1];
      InsertPermutes(init, x);
      assert s == init + [Last(s)];
    }
  }

  lemma {:induction false} InsertBounded(s: seq<HostEvent>, x: HostEvent, bound: nat)
    requires forall k :: 0 <= k < |s| ==> s[k].blockTime <= bound
    requires x.blockTime <= bound
    ensures forall k :: 0 <= k < |Insert(s, x)| ==> Insert(s, x)[k].blockTime <= bound
  {
    if !(s == [] || Last(s).blockTime <= x.blockTime) {
      InsertBounded(s[..|s| - 1], x, bound);
    }
  }

  lemma {:induction false} InsertSorted(s: seq<HostEvent>, x: HostEvent)
    requires SortedByTime(s)
    ensures SortedByTime(Insert(s, x))
  {
    if !(s == [] || Last(s).blockTime <= x.blockTime) {
      var init := s[..|s| - 1];
      var last := Last(s);
      InsertSorted(init, x);
      InsertBounded(init, x, last.blockTime);
      var r := Insert(init, x);
      assert Insert(s, x) == r + [last];
      forall i, j | 0 <= i < j < |r| + 1 ensures (r + [last])[i].blockTime <= (r + [last])[j].blockTime {
        if j == |r| {
          assert (r + [last])[i] == r[i];
        } else {
          assert (r + [last])[i] == r[i] && (r + [last])[j] == r[j];
        }
      }
    }
  }

  /** The sort orders by time and is a permutation. */
  lemma {:induction false} SortSortsAndPermutes(s: seq<HostEvent>)
    ensures SortedByTime(SortByTime(s))
    ensures multiset(SortByTime(s)) == multiset(s)
  {
    if s != [] {
      var init := s[..|s| - 1];
      SortSortsAndPermutes(init);
      InsertSorted(SortByTime(init), Last(s));
      InsertPermutes(SortByTime(init), Last(s));
      assert s == init + [Last(s)];
    }
  }

  function TimeIs(t: nat): HostEvent -> bool {
    (e: HostEvent) => e.blockTime == t
  }

  /** The events at time `t`, in order. */
  function AtTime(s: seq<HostEvent>, t: nat): seq<HostEvent> {
    Filter(s, TimeIs(t))
  }

  lemma {:induction false} InsertAtTime(s: seq<HostEvent>, x: HostEvent, t: nat)
    ensures AtTime(Insert(s, x), t) == AtTime(s, t) + (if x.blockTime == t then [x] else [])
  {
    if s == [] || Last(s).blockTime <= x.blockTime {
      FilterSnoc(s, x, TimeIs(t));
    } else {
      var init, y := s[..|s| - 1], Last(s);
      var r := Insert(init, x);
      assert Insert(s, x) == r + [y];
      InsertAtTime(init, x, t);
      FilterSnoc(r, y, TimeIs(t));
      assert s == init + [y];
      FilterSnoc(init, y, TimeIs(t));
    }
  }

  /** Sorting is stable: the events at any one time keep their order. */
  lemma {:induction false} SortIsStable(s: seq<HostEvent>, t: nat)
    ensures AtTime(SortByTime(s), t) == AtTime(s, t)
  {
    if s != [] {
      var init := s[..|s| - 1];
      SortIsStable(init, t);
      InsertAtTime(SortByTime(init), Last(s), t);
      assert s == init + [Last(s)];
      FilterAppend(init, [Last(s)], TimeIs(t));
    }
  }

  lemma {:induction false} FilterKeepsSorted(s: seq<HostEvent>, p: HostEvent -> bool)
    requires SortedByTime(s)
    ensures SortedByTime(Filter(s, p))
  {
    if s != [] {
      var init := s[..|s| - 1];
      FilterKeepsSorted(init, p);
      var f := Filter(init, p);
      if p(Last(s)) {
        forall i, j | 0 <= i < j < |f + [Last(s)]| ensures (f + [Last(s)])[i].blockTime <= (f + [Last(s)])[j].blockTime {
          if j == |f| {
            assert f[i] in init;
          }
        }
      }
    }
  }

  /** Filtering commutes with inserting into a sorted list. */
  lemma {:induction false} FilterInsert(s: seq<HostEvent>, x: HostEvent, p: HostEvent -> bool)
    requires SortedByTime(s)
    ensures Filter(Insert(s, x), p) == if p(x) then Insert(Filter(s, p), x) else Filter(s, p)
  {
    if s == [] || Last(s).blockTime <= x.blockTime {
      FilterSnoc(s, x, p);
      var f := Filter(s, p);
      if f != [] {
        assert Last(f) in s;
      }
    } else {
      var init, y := s[..|s| - 1], Last(s);
      var r := Insert(init, x);
      assert Insert(s, x) == r + [y];
      assert s == init + [y];
      FilterInsert(init, x, p);
      FilterSnoc(r, y, p);
      FilterSnoc(init, y, p);
    }
  }

  /** Sorting then keeping the MIDI events is the same as sorting the MIDI
      events: the list handed to the plugin is the stable sort of the
      host's MIDI events. */
  lemma {:induction false} SortThenFilter(s: seq<HostEvent>)
    ensures Filter(SortByTime(s), IsMidi) == SortByTime(Filter(s, IsMidi))
  {
    if s != [] {
      var init := s[..|s| - 1];
      SortThenFilter(init);
      SortSortsAndPermutes(init);
      FilterInsert(SortByTime(init), Last(s), IsMidi);
      var f := Filter(init, IsMidi);
      if IsMidi(Last(s)) {
        assert Filter(s, IsMidi) == f + [Last(s)];
        assert (f + [Last(s)])[..|f|] == f;
      }
    }
  }

  /** `filter_map(midi_event_to_vst2_event)`. */
  function ConvertMidi(s: seq<HostEvent>): (r: seq<Vst2MidiEvent>)
    ensures |r| == |Filter(s, IsMidi)|
    ensures forall i :: 0 <= i < |r| ==> Some(r[i]) == MidiEventToVst2Event(Filter(s, IsMidi)[i])
  {
    if s == [] then []
    else match MidiEventToVst2Event(Last(s))
      case None => ConvertMidi(s[..|s| - 1])
      case Some(v) => ConvertMidi(s[..|s| - 1]) + [v]
  }

  /** The events handed to the plugin, in order. */
  function Vst2EventList(events: seq<HostEvent>): seq<Vst2MidiEvent> {
    ConvertMidi(SortByTime(events))
  }

  /** The list holds one converted event per host MIDI event, in the order
      of the stable sort of the MIDI events. */
  lemma Vst2EventListContents(events: seq<HostEvent>)
    ensures |Vst2EventList(events)| == |Filter(events, IsMidi)|
    ensures forall i :: 0 <= i < |Vst2EventList(events)| ==>
      Some(Vst2EventList(events)[i]) == MidiEventToVst2Event(SortByTime(Filter(events, IsMidi))[i])
  {
    SortThenFilter(events);
  }

  /** Within the 32-bit range the delta frames handed to the plugin never
      decrease. */
  lemma DeltaFramesAscending(events: seq<HostEvent>)
    requires forall e :: e in events ==> e.blockTime < 0x8000_0000
    ensures forall i, j :: 0 <= i < j < |Vst2EventList(events)| ==>
      Vst2EventList(events)[i].deltaFrames <= Vst2EventList(events)[j].deltaFrames
  {
    var sorted := SortByTime(events);
    var midi := Filter(sorted, IsMidi);
    SortSortsAndPermutes(events);
    FilterKeepsSorted(sorted, IsMidi);
    var list := Vst2EventList(events);
    forall i | 0 <= i < |midi| ensures list[i].deltaFrames == midi[i].blockTime {
      assert midi[i] in sorted;
      assert midi[i] in multiset(events);
    }
  }

  /** `Vst2Events<100>`: the count and the 100 pointer slots, unused slots
      being null (`None`). */
  datatype Vst2Events = Vst2Events(numEvents: int, events: seq<Option<Vst2MidiEvent>>)

  /** The block handed to the plugin: the count, then the events, then
      null slots. */
  function EventsBlock(list: seq<Vst2MidiEvent>): (r: Vst2Events)
    requires |list| <= MAX_EVENTS
    ensures r.numEvents == |list| && |r.events| == MAX_EVENTS
    ensures forall i :: 0 <= i < |list| ==> r.events[i] == Some(list[i])
    ensures forall i :: |list| <= i < MAX_EVENTS ==> r.events[i].None?
  {
    Vst2Events(|list|, seq(MAX_EVENTS, i requires 0 <= i < MAX_EVENTS => if i < |list| then Some(list[i]) else None))
  }

  /** The copy loop into a fresh block of null slots. */
  method FillSlots(list: seq<Vst2MidiEvent>) returns (slots: seq<Option<Vst2MidiEvent>>)
    requires |list| <= MAX_EVENTS
    ensures slots == EventsBlock(list).events
  {
    var block := new Option<Vst2MidiEvent>[MAX_EVENTS](_ => None);
    for i := 0 to |list|
      invariant forall k :: 0 <= k < i ==> block[k] == Some(list[k])
      invariant forall k :: |list| <= k < MAX_EVENTS ==> block[k].None?
    {
      block[i] := Some(list[i]);
    }
    slots := block[..];
    assert slots == EventsBlock(list).events;
  }

  /** `process_vst2_midi_events_list`, up to the dispatch to the plugin.
      `None` is the `todo!()` panic for more than 100 MIDI events. */
  method ProcessVst2MidiEventsList(events: seq<HostEvent>) returns (r: Option<Vst2Events>)
    ensures r.None? <==> |Filter(events, IsMidi)| > MAX_EVENTS
    ensures r.Some? ==> |Vst2EventList(events)| <= MAX_EVENTS && r.value == EventsBlock(Vst2EventList(events))
  {
    var list := Vst2EventList(events);
    assert |list| == |Filter(events, IsMidi)| by {
      Vst2EventListContents(events);
    }
    var numEvents := |list|;
    if numEvents > MAX_EVENTS {
      return None;
    }
    var slots := FillSlots(list);
    r := Some(Vst2Events(AsI32(numEvents), slots));
  }
}
