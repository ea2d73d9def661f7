/** The timeline clip asset of the visual-effect control track and the playable
    behaviour it creates: the clip's settings are copied over, its clip events and
    single events are flattened into one event array, and the prewarm settings are
    passed on only when prewarming can take effect.

    The playable graph, the owner object and the behaviour's own playback are not
    part of this model; `CreatePlayable` returns the behaviour it fills in. */
module VisualEffectControl {
  import opened Wrappers

  /** `uint`. */
  type UInt32 = x: int | 0 <= x < 0x1_0000_0000

  /** `int.MaxValue`: the largest array length the `int` arithmetic can express. */
  const IntMax: int := 0x7FFF_FFFF

  /** The names of `VisualEffectAsset.PlayEventName` and `StopEventName`. */
  const PlayEventName: string := "OnPlay"
  const StopEventName: string := "OnStop"

  /** `ClipCaps` flags a timeline clip asset can declare. */
  datatype ClipCap = Looping | Extrapolation | ClipIn | SpeedMultiplier | Blending

  /** `clipCaps`: the asset declares none of them. */
  const AssetClipCaps: set<ClipCap> := {}

  /** When an event fires relative to the clip. The flattening copies events without
      looking at them, so the enum's other values are kept as opaque ordinals. */
  datatype TimeSpace = AfterClipStart | BeforeClipEnd | OtherTimeSpace(ordinal: int)

  /** `VisualEffectPlayableSerializedEvent`; a null name is `None`. */
  datatype SerializedEvent = SerializedEvent(name: Option<string>, time: real, timeSpace: TimeSpace)

  /** A pair of events bracketing the clip. */
  datatype ClipEvent = ClipEvent(enter: SerializedEvent, exit: SerializedEvent)

  /** `PrewarmClipSettings`; a null `eventName` is `None`. */
  datatype PrewarmClipSettings = PrewarmClipSettings(
    enable: bool,
    stepCount: UInt32,
    deltaTime: real,
    eventName: Option<string>)

  /** The asset's state; a null event list is `None`. */
  datatype Asset = Asset(
    clipStart: real,
    clipEnd: real,
    scrubbing: bool,
    startSeed: UInt32,
    prewarm: PrewarmClipSettings,
    clipEvents: Option<seq<ClipEvent>>,
    singleEvents: Option<seq<SerializedEvent>>)

  /** The fields of `VisualEffectControlPlayableBehaviour` that `CreatePlayable` sets. */
  datatype Behaviour = Behaviour(
    clipStart: real,
    clipEnd: real,
    scrubbing: bool,
    startSeed: UInt32,
    clipEventsCount: UInt32,
    events: seq<SerializedEvent>,
    prewarmStepCount: UInt32,
    prewarmDeltaTime: real,
    prewarmEvent: Option<string>)

  /** The field initialisers of a new asset; the clip bounds are set by the timeline. */
  function DefaultAsset(clipStart: real, clipEnd: real): Asset
  {
    Asset(
      clipStart, clipEnd,
      true,
      0,
      PrewarmClipSettings(false, 20, 0.05, Some(PlayEventName)),
      Some([ClipEvent(
        SerializedEvent(Some(PlayEventName), 0.0, AfterClipStart),
        SerializedEvent(Some(StopEventName), 0.0, BeforeClipEnd))]),
      Some([]))
  }

  /** A new asset starts and stops the effect with the clip, fires no single event,
      scrubs, and does not prewarm (though it keeps 20 steps ready). */
  lemma DefaultAssetFacts(clipStart: real, clipEnd: real)
    ensures var a := DefaultAsset(clipStart, clipEnd);
      && a.clipEvents.Some? && |a.clipEvents.value| == 1
      && a.clipEvents.value[0].enter == SerializedEvent(Some(PlayEventName), 0.0, AfterClipStart)
      && a.clipEvents.value[0].exit == SerializedEvent(Some(StopEventName), 0.0, BeforeClipEnd)
      && a.singleEvents == Some([])
      && !a.prewarm.enable && a.prewarm.stepCount == 20
      && a.scrubbing
      && AssetClipCaps == {}
  {
  }

  /** The events in behaviour order: each clip event's enter then exit, in clip order,
      then the single events. */
  function Flattened(clips: seq<ClipEvent>, singles: seq<SerializedEvent>): (r: seq<SerializedEvent>)
    ensures |r| == 2 * |clips| + |singles|
  {
    if |clips| == 0 then singles
    else [clips[0].enter, clips[0].exit] + Flattened(clips[1..], singles)
  }

  /** Clip event `i` lands at slots `2i` (enter) and `2i + 1` (exit). */
  lemma {:induction false} FlattenedClipSlots(clips: seq<ClipEvent>, singles: seq<SerializedEvent>, i: nat)
    requires i < |clips|
    ensures Flattened(clips, singles)[2 * i] == clips[i].enter
    ensures Flattened(clips, singles)[2 * i + 1] == clips[i].exit
  {
    if i > 0 {
      FlattenedClipSlots(clips[1..], singles, i - 1);
      assert clips[1..][i - 1] == clips[i];
    }
  }

  /** Single event `j` lands at slot `2 * |clips| + j`. */
  lemma {:induction false} FlattenedSingleSlot(clips: seq<ClipEvent>, singles: seq<SerializedEvent>, j: nat)
    requires j < |singles|
    ensures Flattened(clips, singles)[2 * |clips| + j] == singles[j]
  {
    if |clips| > 0 {
      FlattenedSingleSlot(clips[1..], singles, j);
    }
  }

  /** Where each event lands in the flattened sequence. */
  lemma FlattenedIndices(clips: seq<ClipEvent>, singles: seq<SerializedEvent>)
    ensures forall i :: 0 <= i < |clips| ==>
      Flattened(clips, singles)[2 * i] == clips[i].enter
      && Flattened(clips, singles)[2 * i + 1] == clips[i].exit
    ensures forall j :: 0 <= j < |singles| ==> Flattened(clips, singles)[2 * |clips| + j] == singles[j]
  {
    forall i | 0 <= i < |clips|
      ensures Flattened(clips, singles)[2 * i] == clips[i].enter
      ensures Flattened(clips, singles)[2 * i + 1] == clips[i].exit
    {
      FlattenedClipSlots(clips, singles, i);
    }
    forall j | 0 <= j < |singles|
      ensures Flattened(clips, singles)[2 * |clips| + j] == singles[j]
    {
      FlattenedSingleSlot(clips, singles, j);
    }
  }

  /** The clip events a behaviour holds: the first `clipEventsCount` pairs. */
  function ClipEventsOf(count: nat, events: seq<SerializedEvent>): (clips: seq<ClipEvent>)
    requires 2 * count <= |events|
    ensures |clips| == count
  {
    seq(count, i requires 0 <= i < count => ClipEvent(events[2 * i], events[2 * i + 1]))
  }

  /** The single events a behaviour holds: everything after the clip-event pairs. */
  function SingleEventsOf(count: nat, events: seq<SerializedEvent>): seq<SerializedEvent>
    requires 2 * count <= |events|
  {
    events[2 * count..]
  }

  /** Reading the flattened events back with the clip-event count recovers both lists. */
  lemma FlattenedRoundTrip(clips: seq<ClipEvent>, singles: seq<SerializedEvent>)
    ensures ClipEventsOf(|clips|, Flattened(clips, singles)) == clips
    ensures SingleEventsOf(|clips|, Flattened(clips, singles)) == singles
  {
    FlattenedIndices(clips, singles);
    var r := Flattened(clips, singles);
    assert forall j :: 0 <= j < |singles| ==> r[2 * |clips|..][j] == singles[j];
  }

  /** The two `foreach` loops writing through a cursor into a fresh array of the
      final length. The array is modelled by the prefix written so far, whose
      length is the cursor: each step fills the next slot, so every slot is
      written exactly once, in order. */
  method FlattenEvents(clips: seq<ClipEvent>, singles: seq<SerializedEvent>)
    returns (events: seq<SerializedEvent>)
    ensures events == Flattened(clips, singles)
  {
    FlattenedIndices(clips, singles);
    ghost var target := Flattened(clips, singles);
    events := [];
    for c := 0 to |clips|
      invariant |events| == 2 * c
      invariant forall k :: 0 <= k < |events| ==> events[k] == target[k]
    {
      events := events + [clips[c].enter];
      events := events + [clips[c].exit];
    }
    for s := 0 to |singles|
      invariant |events| == 2 * |clips| + s
      invariant forall k :: 0 <= k < |events| ==> events[k] == target[k]
    {
      events := events + [singles[s]];
    }
  }

  /** Whether prewarming can take effect: it is enabled, the clip scrubs, and the
      event name is neither null nor empty. */
  predicate PrewarmApplies(prewarm: PrewarmClipSettings, scrubbing: bool)
  {
    prewarm.enable && scrubbing && prewarm.eventName.Some? && prewarm.eventName.value != ""
  }

  /** The behaviour's prewarm step count, delta time and event. */
  datatype PrewarmPlan = PrewarmPlan(stepCount: UInt32, deltaTime: real, event: Option<string>)

  /** The prewarm gate: the settings pass through when prewarming applies and are
      cleared to `0`, `0.0` and null otherwise. */
  function PrewarmOf(prewarm: PrewarmClipSettings, scrubbing: bool): (r: PrewarmPlan)
    ensures r.event.Some? <==> PrewarmApplies(prewarm, scrubbing)
    ensures r.event.Some? ==> r.event.value != "" && r.event == prewarm.eventName
    ensures r.event.Some? ==> r.stepCount == prewarm.stepCount && r.deltaTime == prewarm.deltaTime
    ensures r.event.None? ==> r.stepCount == 0 && r.deltaTime == 0.0
  {
    if !prewarm.enable || !scrubbing || prewarm.eventName.None? || prewarm.eventName.value == "" then
      PrewarmPlan(0, 0.0, None)
    else
      PrewarmPlan(prewarm.stepCount, prewarm.deltaTime, prewarm.eventName)
  }

  /** A new asset does not prewarm, whatever its clip bounds. */
  lemma DefaultAssetDoesNotPrewarm(clipStart: real, clipEnd: real)
    ensures PrewarmOf(DefaultAsset(clipStart, clipEnd).prewarm, DefaultAsset(clipStart, clipEnd).scrubbing)
      == PrewarmPlan(0, 0.0, None)
  {
  }

  /** Turning scrubbing off clears the prewarm settings whatever they were. */
  lemma NoScrubbingNoPrewarm(prewarm: PrewarmClipSettings)
    ensures PrewarmOf(prewarm, false) == PrewarmPlan(0, 0.0, None)
  {
  }

  /** `CreatePlayable` fails when the event array length does not fit in an `int`:
      either the negative wrapped length makes the allocation throw or the wrapped
      positive length makes a write run past the array's end. */
  datatype PlayableError = EventArrayTooLarge

  /** `CreatePlayable`: replaces null event lists on the asset by empty ones, copies
      the clip settings, flattens the events and applies the prewarm gate. */
  method CreatePlayable(asset: Asset) returns (asset': Asset, r: Result<Behaviour, PlayableError>)
    ensures asset'.clipEvents == Some(if asset.clipEvents.Some? then asset.clipEvents.value else [])
    ensures asset'.singleEvents == Some(if asset.singleEvents.Some? then asset.singleEvents.value else [])
    ensures asset' == asset.(clipEvents := asset'.clipEvents, singleEvents := asset'.singleEvents)
    ensures r.Failure? <==> 2 * |asset'.clipEvents.value| + |asset'.singleEvents.value| > IntMax
    ensures r.Success? ==>
      var b := r.value;
      var clips := asset'.clipEvents.value;
      var singles := asset'.singleEvents.value;
      && b.clipStart == asset.clipStart && b.clipEnd == asset.clipEnd
      && b.scrubbing == asset.scrubbing && b.startSeed == asset.startSeed
      && b.clipEventsCount == |clips|
      && |b.events| == 2 * |clips| + |singles|
      && ClipEventsOf(b.clipEventsCount, b.events) == clips
      && SingleEventsOf(b.clipEventsCount, b.events) == singles
      && PrewarmPlan(b.prewarmStepCount, b.prewarmDeltaTime, b.prewarmEvent) == PrewarmOf(asset.prewarm, asset.scrubbing)
  {
    var clips := if asset.clipEvents.Some? then asset.clipEvents.value else [];
    var singles := if asset.singleEvents.Some? then asset.singleEvents.value else [];
    asset' := asset.(clipEvents := Some(clips), singleEvents := Some(singles));
    if 2 * |clips| + |singles| > IntMax {
      r := Failure(EventArrayTooLarge);
      return;
    }
    var events := FlattenEvents(clips, singles);
    FlattenedRoundTrip(clips, singles);
    var plan := PrewarmOf(asset.prewarm, asset.scrubbing);
    r := Success(Behaviour(
      asset.clipStart, asset.clipEnd, asset.scrubbing, asset.startSeed,
      |clips|, events,
      plan.stepCount, plan.deltaTime, plan.event));
  }
}
