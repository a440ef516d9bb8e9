/** Runs of the camera screen: a sequence of presses and callbacks applied
    one after another from a state, with the effects they emit, and what
    holds of every such run. */
module ScreenTraces {
  import opened VideoSize
  import opened Screens

  datatype Replay = Replay(final: ScreenState, effects: seq<Effect>)

  predicate AllDeliverable(events: seq<Event>) {
    forall i :: 0 <= i < |events| ==> Deliverable(events[i])
  }

  /** The state after `events` and the effect each of them emitted, in order. */
  function Run(s: ScreenState, events: seq<Event>): (r: Replay)
    requires AllDeliverable(events)
    ensures |r.effects| == |events|
    ensures InCatalog(s) ==> InCatalog(r.final)
    decreases |events|
  {
    if events == [] then Replay(s, [])
    else
      var t := Step(s, events[0]);
      var rest := Run(t.screen, events[1..]);
      Replay(rest.final, [t.effect] + rest.effects)
  }

  /** The megabyte values of the size notifications among `effects`, in order. */
  function SizeAlerts(effects: seq<Effect>): seq<real>
  {
    if effects == [] then []
    else (if effects[0].SizeAlert? then [effects[0].megabytes] else []) + SizeAlerts(effects[1..])
  }

  /** The estimate each finished recording in `events` should announce. */
  function FinishEstimates(events: seq<Event>): (sizes: seq<real>)
    requires AllDeliverable(events)
  {
    if events == [] then []
    else
      (match events[0]
       case RecordingFinished(tier, duration) => [CalculateVideoSize(tier, RecordingBitrate, duration)]
       case _ => [])
      + FinishEstimates(events[1..])
  }

  /** Running two sequences one after the other is running their
      concatenation. */
  lemma {:induction false} RunAppend(s: ScreenState, a: seq<Event>, b: seq<Event>)
    requires AllDeliverable(a) && AllDeliverable(b)
    ensures AllDeliverable(a + b)
    ensures var first := Run(s, a);
      && Run(s, a + b).final == Run(first.final, b).final
      && Run(s, a + b).effects == first.effects + Run(first.final, b).effects
    decreases |a|
  {
    if a != [] {
      RunAppend(Step(s, a[0]).screen, a[1..], b);
      assert (a + b)[1..] == a[1..] + b;
    } else {
      assert a + b == b;
    }
  }

  /** A recording's size alert prices the tier selected when record was
      pressed: whatever runs between the start and the finish, including
      resolution presses, the finish alert is the estimate for the tier the
      start captured. */
  lemma FinishPricesStartTier(s: ScreenState, between: seq<Event>, duration: real)
    requires InCatalog(s) && AllDeliverable(between)
    ensures var start := Step(s, StartRecordingPressed(true)).effect;
      && start == RecordingStarted(RecordingCall(VideoCodec, s.selectedResolution.pixel))
      && var events := [StartRecordingPressed(true)] + between
                       + [RecordingFinished(start.call.capturedTier, duration)];
      && AllDeliverable(events)
      && Run(s, events).effects[0] == start
      && Run(s, events).effects[|between| + 1]
         == SizeAlert(CalculateVideoSize(s.selectedResolution.pixel, RecordingBitrate, duration))
  {
    var start := Step(s, StartRecordingPressed(true)).effect;
    var head := [StartRecordingPressed(true)] + between;
    var finish := [RecordingFinished(start.call.capturedTier, duration)];
    RunAppend(s, head, finish);
    var mid := Run(s, head).final;
    assert Run(mid, finish).effects == [SizeAlert(CalculateVideoSize(s.selectedResolution.pixel, RecordingBitrate, duration))];
    RunAppend(s, [StartRecordingPressed(true)], between);
    assert Run(s, [StartRecordingPressed(true)]).effects == [start];
  }

  /** Every state reachable from the first render selects a catalog entry. */
  lemma ReachableInCatalog(events: seq<Event>)
    requires AllDeliverable(events)
    ensures Run(Initial, events).final.selectedResolution in Resolutions
  {
  }

  /** Each finished recording produces exactly one size notification, in the
      order the recordings finished, carrying the estimate at the fixed
      bitrate for the tier its callback captured; no other event notifies. */
  lemma {:induction false} OneAlertPerFinish(s: ScreenState, events: seq<Event>)
    requires AllDeliverable(events)
    ensures SizeAlerts(Run(s, events).effects) == FinishEstimates(events)
    decreases |events|
  {
    if events != [] {
      var t := Step(s, events[0]);
      OneAlertPerFinish(t.screen, events[1..]);
      var r := Run(s, events);
      assert r.effects[1..] == Run(t.screen, events[1..]).effects;
      assert r.effects[0] == t.effect;
    }
  }

  /** Starting, stopping, finishing or failing recordings, in any number
      and order, never changes the screen state. */
  lemma {:induction false} RecordingLeavesScreen(s: ScreenState, events: seq<Event>)
    requires AllDeliverable(events)
    requires forall i :: 0 <= i < |events| ==> IsRecordingEvent(events[i])
    ensures Run(s, events).final == s
    decreases |events|
  {
    if events != [] {
      RecordingLeavesScreen(s, events[1..]);
    }
  }

  /** Any run of resolution presses changes only the selection, and the last
      press wins. */
  lemma {:induction false} SelectionsOnlySelect(s: ScreenState, events: seq<Event>)
    requires AllDeliverable(events)
    requires forall i :: 0 <= i < |events| ==> events[i].ResolutionPressed?
    ensures var r := Run(s, events);
      && r.final.showCamera == s.showCamera
      && r.final.imageSource == s.imageSource
      && r.final.selectedResolution == if events == [] then s.selectedResolution
                                        else Resolutions[events[|events| - 1].index]
    decreases |events|
  {
    if events != [] {
      var t := Step(s, events[0]);
      SelectionsOnlySelect(t.screen, events[1..]);
    }
  }

  /** Any non-empty run of Show Camera, Retake and Use Photo presses leaves
      the screen exactly as one press does: live view shown, photo and
      selection kept. */
  lemma {:induction false} CameraPressesIdempotent(s: ScreenState, events: seq<Event>)
    requires AllDeliverable(events)
    requires forall i :: 0 <= i < |events| ==> IsCameraPress(events[i])
    requires events != []
    ensures Run(s, events).final == s.(showCamera := true)
    ensures Run(s, events).final == Run(s, [events[0]]).final
    decreases |events|
  {
    var t := Step(s, events[0]);
    if |events| > 1 {
      CameraPressesIdempotent(t.screen, events[1..]);
    }
  }
}
