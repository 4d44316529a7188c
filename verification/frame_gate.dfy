/** The drop-frame gate of `processImage` as a sequential state machine:
    a camera frame arrives, or the background job for the frame in flight
    ends. Besides the activity's own two fields (`computingDetection`,
    `timestamp`) the state records the jobs in flight and counts gate
    transitions, so that the gate's guarantees can be stated. */
module FrameGate {
  import opened Detections
  import opened Assembly

  /** `computingDetection` and `timestamp`, plus bookkeeping: the timestamps
      of scheduled jobs not yet ended, and how many jobs were started, released
      the gate, or threw. */
  datatype Gate = Gate(
    computingDetection: bool,
    timestamp: int,
    inFlight: seq<int>,
    started: nat,
    resets: nat,
    crashes: nat)

  /** What happens in the activity: a frame arrives, or the job in flight
      ends; its outcome depends on that frame's detector output and on the
      foreign calls it makes. */
  datatype Event = FrameArrived | JobEnded(env: Collaborators, results: seq<Recognition>)

  /** What a step makes visible: a dropped frame, a job scheduled for a
      timestamp, a tracker hand-off, a job that threw before releasing the
      gate, or an end event with no job to end. */
  datatype Output =
    | Dropped
    | Scheduled(timestamp: int)
    | Tracked(call: TrackerCall, lastPlateText: string)
    | Stalled(timestamp: int)
    | NoJob

  /** The fields' initial values: not computing, timestamp 0. */
  const Initial: Gate := Gate(false, 0, [], 0, 0, 0)

  /** At most one job is in flight; a job in flight keeps the gate closed and
      was scheduled no later than now; every start has been matched by a
      release, a crash, or is still in flight. */
  predicate Inv(g: Gate) {
    && |g.inFlight| <= 1
    && (|g.inFlight| == 1 ==> g.computingDetection && g.inFlight[0] <= g.timestamp)
    && g.started == g.resets + g.crashes + |g.inFlight|
  }

  /** A frame arrives: the timestamp always advances; a busy gate drops the
      frame and changes nothing else; an idle gate closes and schedules one job
      for this frame's timestamp. */
  function OnFrame(g: Gate): (r: (Gate, Output))
    ensures r.0.timestamp == g.timestamp + 1
    ensures r.0.computingDetection
    ensures g.computingDetection ==> r.1 == Dropped && r.0 == g.(timestamp := g.timestamp + 1)
    ensures !g.computingDetection ==>
      && r.1 == Scheduled(g.timestamp + 1)
      && r.0.inFlight == g.inFlight + [g.timestamp + 1]
      && r.0.started == g.started + 1
  {
    var now := g.timestamp + 1;
    if g.computingDetection then
      (g.(timestamp := now), Dropped)
    else
      (g.(computingDetection := true, timestamp := now, inFlight := g.inFlight + [now], started := g.started + 1),
       Scheduled(now))
  }

  /** The job in flight ends. If it reaches the hand-off, the tracker gets the
      list built for the job's own timestamp and the gate opens; if it throws,
      the gate stays closed. */
  function OnJobEnded(g: Gate, env: Collaborators, results: seq<Recognition>): (r: (Gate, Output))
    ensures r.0.timestamp == g.timestamp
    ensures |g.inFlight| == 0 ==> r == (g, NoJob)
    ensures |g.inFlight| > 0 ==> r.0.inFlight == g.inFlight[1..]
    ensures |g.inFlight| > 0 && FrameJob(env, results, g.inFlight[0]).Finished? ==>
      && r.1 == Tracked(FrameJob(env, results, g.inFlight[0]).call, FrameJob(env, results, g.inFlight[0]).lastPlateText)
      && r.1.call.timestamp == g.inFlight[0]
      && !r.0.computingDetection
    ensures |g.inFlight| > 0 && FrameJob(env, results, g.inFlight[0]).Crashed? ==>
      r.1 == Stalled(g.inFlight[0]) && r.0.computingDetection == g.computingDetection
  {
    if |g.inFlight| == 0 then (g, NoJob)
    else
      var ts := g.inFlight[0];
      var rest := g.inFlight[1..];
      match FrameJob(env, results, ts)
      case Finished(call, text) =>
        (g.(computingDetection := false, inFlight := rest, resets := g.resets + 1), Tracked(call, text))
      case Crashed =>
        (g.(inFlight := rest, crashes := g.crashes + 1), Stalled(ts))
  }

  function Step(g: Gate, e: Event): (Gate, Output) {
    match e
    case FrameArrived => OnFrame(g)
    case JobEnded(env, results) => OnJobEnded(g, env, results)
  }

  /** Runs a sequence of events, collecting the outputs. */
  function Run(g: Gate, events: seq<Event>): (Gate, seq<Output>)
    decreases |events|
  {
    if |events| == 0 then (g, [])
    else
      var (g1, out) := Step(g, events[0]);
      var (gn, outs) := Run(g1, events[1..]);
      (gn, [out] + outs)
  }

  /** The number of frame arrivals in a run. */
  function Arrivals(events: seq<Event>): nat {
    if |events| == 0 then 0
    else (if events[0].FrameArrived? then 1 else 0) + Arrivals(events[1..])
  }

  /** The timestamps handed to the tracker, in order. */
  function HandedStamps(outs: seq<Output>): seq<int> {
    if |outs| == 0 then []
    else (if outs[0].Tracked? then [outs[0].call.timestamp] else []) + HandedStamps(outs[1..])
  }

  predicate StrictlyIncreasing(s: seq<int>) {
    forall i, j :: 0 <= i < j < |s| ==> s[i] < s[j]
  }

  /** A single step keeps the invariant. */
  lemma StepKeepsInv(g: Gate, e: Event)
    requires Inv(g)
    ensures Inv(Step(g, e).0)
  {}

  /** Over any run, at most one job is ever in flight and every started job is
      matched by exactly one release or crash, or is still running. */
  lemma {:induction false} RunKeepsInv(g: Gate, events: seq<Event>)
    requires Inv(g)
    ensures Inv(Run(g, events).0)
    decreases |events|
  {
    if |events| > 0 {
      StepKeepsInv(g, events[0]);
      RunKeepsInv(Step(g, events[0]).0, events[1..]);
    }
  }

  /** Every arrival advances the timestamp by one, whether or not the frame
      is dropped; nothing else moves it. */
  lemma {:induction false} RunCountsArrivals(g: Gate, events: seq<Event>)
    ensures Run(g, events).0.timestamp == g.timestamp + Arrivals(events)
    decreases |events|
  {
    if |events| > 0 {
      RunCountsArrivals(Step(g, events[0]).0, events[1..]);
    }
  }

  /** The lowest timestamp a later hand-off can carry, minus one. */
  function HandOffFloor(g: Gate): int {
    if |g.inFlight| > 0 then g.inFlight[0] - 1 else g.timestamp
  }

  /** One step never lowers the floor, and a hand-off lies above the old
      floor and at or below the new one. */
  lemma StepRaisesFloor(g: Gate, e: Event)
    requires Inv(g)
    ensures HandOffFloor(g) <= HandOffFloor(Step(g, e).0)
    ensures Step(g, e).1.Tracked? ==>
      HandOffFloor(g) < Step(g, e).1.call.timestamp <= HandOffFloor(Step(g, e).0)
  {}

  /** The tracker receives strictly increasing timestamps, none older than the
      job in flight at the start of the run (or, with none, than the current
      timestamp). */
  lemma {:induction false} HandOffsIncrease(g: Gate, events: seq<Event>)
    requires Inv(g)
    ensures StrictlyIncreasing(HandedStamps(Run(g, events).1))
    ensures forall i :: 0 <= i < |HandedStamps(Run(g, events).1)| ==>
      HandOffFloor(g) < HandedStamps(Run(g, events).1)[i]
    decreases |events|
  {
    if |events| > 0 {
      var (g1, out) := Step(g, events[0]);
      StepKeepsInv(g, events[0]);
      StepRaisesFloor(g, events[0]);
      HandOffsIncrease(g1, events[1..]);
      var later := Run(g1, events[1..]).1;
      var outs := Run(g, events).1;
      assert outs == [out] + later;
      assert outs[1..] == later;
      var rest := HandedStamps(later);
      if out.Tracked? {
        assert HandedStamps(outs) == [out.call.timestamp] + rest;
      } else {
        assert HandedStamps(outs) == rest;
      }
    }
  }

  /** A gate left closed by a job that threw never opens again: every later
      frame is dropped and no job is ever scheduled. */
  lemma {:induction false} StalledGateDropsEveryFrame(g: Gate, events: seq<Event>)
    requires g.computingDetection && |g.inFlight| == 0
    ensures Run(g, events).0.computingDetection
    ensures forall i :: 0 <= i < |Run(g, events).1| ==> Run(g, events).1[i] in {Dropped, NoJob}
    decreases |events|
  {
    if |events| > 0 {
      var (g1, out) := Step(g, events[0]);
      StalledGateDropsEveryFrame(g1, events[1..]);
      assert Run(g, events).1 == [out] + Run(g1, events[1..]).1;
    }
  }

  /** `k` frame arrivals in a row. */
  function Frames(k: nat): (es: seq<Event>)
    ensures |es| == k && forall i :: 0 <= i < k ==> es[i].FrameArrived?
  {
    seq(k, _ => FrameArrived)
  }

  /** Running two event sequences one after the other. */
  lemma {:induction false} RunAppend(g: Gate, a: seq<Event>, b: seq<Event>)
    ensures Run(g, a + b).0 == Run(Run(g, a).0, b).0
    ensures Run(g, a + b).1 == Run(g, a).1 + Run(Run(g, a).0, b).1
    decreases |a|
  {
    if |a| > 0 {
      var (g1, out) := Step(g, a[0]);
      assert (a + b)[0] == a[0];
      assert (a + b)[1..] == a[1..] + b;
      RunAppend(g1, a[1..], b);
      var mid := Run(g1, a[1..]).0;
      assert Run(g, a).0 == mid;
      assert Run(g, a).1 == [out] + Run(g1, a[1..]).1;
      assert Run(g, a + b).1 == [out] + Run(g1, a[1..] + b).1;
    } else {
      assert a + b == b;
    }
  }

  /** While the gate is closed, every arriving frame is dropped: only the
      timestamp moves and no job is scheduled. */
  lemma {:induction false} BusyGateDropsFrames(g: Gate, k: nat)
    requires g.computingDetection
    ensures Run(g, Frames(k)).0 == g.(timestamp := g.timestamp + k)
    ensures |Run(g, Frames(k)).1| == k
    ensures forall i :: 0 <= i < k ==> Run(g, Frames(k)).1[i] == Dropped
    decreases k
  {
    if k > 0 {
      assert Frames(k)[1..] == Frames(k - 1);
      BusyGateDropsFrames(g.(timestamp := g.timestamp + 1), k - 1);
    }
  }

  /** A frame accepted by an open gate is the one whose timestamp the tracker
      receives: the frames arriving while its job runs are dropped, and when
      the job ends it hands over the list built for that frame, with that
      frame's timestamp, or it throws and leaves the gate closed. */
  lemma HandOffCarriesFrameStamp(g: Gate, k: nat, env: Collaborators, results: seq<Recognition>)
    requires Inv(g) && !g.computingDetection
    ensures
      var t := g.timestamp + 1;
      var outs := Run(g, [FrameArrived] + Frames(k) + [JobEnded(env, results)]).1;
      && |outs| == k + 2
      && outs[0] == Scheduled(t)
      && (forall i :: 1 <= i <= k ==> outs[i] == Dropped)
      && (FrameJob(env, results, t).Finished? ==>
            outs[k + 1] == Tracked(FrameJob(env, results, t).call, FrameJob(env, results, t).lastPlateText)
            && outs[k + 1].call.timestamp == t)
      && (FrameJob(env, results, t).Crashed? ==> outs[k + 1] == Stalled(t))
  {
    var t := g.timestamp + 1;
    var g1 := OnFrame(g).0;
    assert g1.inFlight == [t];
    RunAppend(g, [FrameArrived], Frames(k));
    RunAppend(g, [FrameArrived] + Frames(k), [JobEnded(env, results)]);
    assert Run(g, [FrameArrived]) == (g1, [Scheduled(t)]) by {
      var es: seq<Event> := [FrameArrived];
      assert es[1..] == [];
      assert [Scheduled(t)] + [] == [Scheduled(t)];
    }
    BusyGateDropsFrames(g1, k);
    var gk := g1.(timestamp := g1.timestamp + k);
    assert Run(g, [FrameArrived] + Frames(k)).0 == gk;
    assert Run(gk, [JobEnded(env, results)]).1 == [OnJobEnded(gk, env, results).1];
  }
}
