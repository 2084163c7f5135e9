/**
 * The A/B loop controller of content.js (startLoop, stopLoop, the interval
 * callback and the module-level loopInterval).
 *
 * The browser's interval table is part of the state: `timers` maps every
 * registered interval handle to the (A, B) its callback closed over, and
 * `loopInterval` is the script's variable. Handles are positive, so the
 * truthiness test `if (loopInterval)` in startLoop and stopLoop is the same
 * as `!= null`.
 */
module Loop {
  import opened Wrappers
  import opened Media

  /** The endpoints an interval callback closes over, in seconds. */
  datatype Range = Range(a: real, b: real)

  /** The video as the loop controller reads and writes it. */
  datatype Playhead = Playhead(currentTime: real, duration: real, paused: bool)

  datatype LoopState = LoopState(
    video: Option<Playhead>,
    loopInterval: Option<nat>,
    timers: map<nat, Range>,
    nextHandle: nat)

  /** Why startLoop alerted and returned. */
  datatype Rejection = NoVideo | InvalidNumber | OutOfRange

  datatype Verdict = Accept(range: Range) | Reject(reason: Rejection)

  /** Before the script has started any loop. */
  function Initial(video: Option<Playhead>): LoopState {
    LoopState(video, None, map[], 1)
  }

  /**
   * The controller's invariant: the only registered interval is the one
   * loopInterval names, and its range fits the video.
   */
  predicate Invariant(s: LoopState) {
    0 < s.nextHandle &&
    (forall h :: h in s.timers ==> 0 < h < s.nextHandle) &&
    (match s.loopInterval
     case None => s.timers == map[]
     case Some(h) => s.timers.Keys == {h}) &&
    (forall h :: h in s.timers ==>
       s.video.Some? && 0.0 <= s.timers[h].a < s.timers[h].b <= s.video.value.duration)
  }

  /** The bounds test of startLoop, written negated as content.js writes it. */
  predicate InBounds(a: real, b: real, duration: real) {
    !(a < 0.0 || b <= a || b > duration)
  }

  /** startLoop's checks, in the order startLoop makes them: video, numbers, bounds. */
  function Validate(video: Option<Playhead>, a: Option<real>, b: Option<real>): (v: Verdict)
    ensures v == Reject(NoVideo) <==> video.None?
    ensures v == Reject(InvalidNumber) <==> video.Some? && (a.None? || b.None?)
    ensures v.Accept? <==>
      video.Some? && a.Some? && b.Some? && 0.0 <= a.value < b.value <= video.value.duration
    ensures v.Accept? ==> v.range == Range(a.value, b.value)
  {
    if video.None? then Reject(NoVideo)
    else if a.None? || b.None? then Reject(InvalidNumber)
    else if !InBounds(a.value, b.value, video.value.duration) then Reject(OutOfRange)
    else Accept(Range(a.value, b.value))
  }

  /**
   * startLoop with the parsed endpoints (None for NaN): on a rejection
   * nothing changes; otherwise seek to A, play, clear the old interval and
   * register a new one carrying (A, B).
   */
  function Start(s: LoopState, a: Option<real>, b: Option<real>): (r: (Verdict, LoopState))
    ensures r.0 == Validate(s.video, a, b)
    ensures r.0.Reject? ==> r.1 == s
    ensures r.0.Accept? ==>
      r.1.video == Some(s.video.value.(currentTime := a.value, paused := false)) &&
      r.1.loopInterval == Some(s.nextHandle) &&
      s.nextHandle in r.1.timers && r.1.timers[s.nextHandle] == Range(a.value, b.value)
  {
    var v := Validate(s.video, a, b);
    if v.Reject? then (v, s)
    else
      var p := s.video.value;
      var cleared := if s.loopInterval.Some? then s.timers - {s.loopInterval.value} else s.timers;
      var h := s.nextHandle;
      (v, LoopState(Some(p.(currentTime := v.range.a, paused := false)), Some(h), cleared[h := v.range], h + 1))
  }

  /** The browser runs the callback of interval h: past B, seek back to A. */
  function Poll(s: LoopState, h: nat): (r: LoopState)
    ensures h !in s.timers ==> r == s
    ensures h in s.timers && s.video.Some? && s.video.value.currentTime >= s.timers[h].b ==>
      r.video == Some(s.video.value.(currentTime := s.timers[h].a))
    ensures h in s.timers && s.video.Some? && s.video.value.currentTime < s.timers[h].b ==> r == s
    ensures Invariant(s) && h in s.timers ==>
      r.video.Some? && r.video.value.currentTime < s.timers[h].b
    ensures r.loopInterval == s.loopInterval && r.timers == s.timers && r.nextHandle == s.nextHandle
    ensures r.video.Some? <==> s.video.Some?
    ensures r.video.Some? ==>
      r.video.value.duration == s.video.value.duration && r.video.value.paused == s.video.value.paused
  {
    if h !in s.timers || s.video.None? then s
    else
      var p := s.video.value;
      if p.currentTime >= s.timers[h].b then s.(video := Some(p.(currentTime := s.timers[h].a)))
      else s
  }

  /** stopLoop: clear the interval if there is one and forget its handle. */
  function Stop(s: LoopState): (r: LoopState)
    ensures r.loopInterval.None?
    ensures s.loopInterval.None? ==> r == s
    ensures r.video == s.video && r.nextHandle == s.nextHandle
    ensures Invariant(s) ==> r.timers == map[]
  {
    match s.loopInterval
    case None => s
    case Some(h) => s.(loopInterval := None, timers := s.timers - {h})
  }

  /** The stop button: stopLoop, then pause the video if there is one. */
  function StopClick(s: LoopState): (r: LoopState)
    ensures r.loopInterval.None?
    ensures r.video.Some? <==> s.video.Some?
    ensures r.video.Some? ==>
      r.video.value.paused && r.video.value.currentTime == s.video.value.currentTime
  {
    var t := Stop(s);
    if t.video.Some? then t.(video := Some(t.video.value.(paused := true))) else t
  }

  lemma StartInvariant(s: LoopState, a: Option<real>, b: Option<real>)
    requires Invariant(s)
    ensures Invariant(Start(s, a, b).1)
    ensures Start(s, a, b).0.Accept? ==>
      Start(s, a, b).1.timers == map[s.nextHandle := Range(a.value, b.value)]
  {
  }

  lemma PollInvariant(s: LoopState, h: nat)
    requires Invariant(s)
    ensures Invariant(Poll(s, h))
  {
  }

  lemma StopInvariant(s: LoopState)
    requires Invariant(s)
    ensures Invariant(Stop(s)) && Invariant(StopClick(s))
  {
  }

  /** What can happen to the page while the script runs. */
  datatype Event =
    | StartClick(a: Option<real>, b: Option<real>)
    | StopClicked
    | Fire(handle: nat)
    | PlayheadMoved(t: real)  // playback advancing or the user seeking
    | Ended                   // playback reaches the end of the media, which pauses it

  function Step(s: LoopState, e: Event): LoopState {
    match e
    case StartClick(a, b) => Start(s, a, b).1
    case StopClicked => StopClick(s)
    case Fire(h) => Poll(s, h)
    case PlayheadMoved(t) =>
      if s.video.Some? then s.(video := Some(s.video.value.(currentTime := t))) else s
    case Ended =>
      if s.video.Some? then
        s.(video := Some(s.video.value.(currentTime := s.video.value.duration, paused := true)))
      else s
  }

  function Run(s: LoopState, events: seq<Event>): LoopState
    decreases |events|
  {
    if events == [] then s else Run(Step(s, events[0]), events[1..])
  }

  /**
   * Whatever the user and the page do, the script never holds more than
   * one interval, and that one is the interval loopInterval names.
   */
  lemma {:induction false} RunInvariant(s: LoopState, events: seq<Event>)
    requires Invariant(s)
    ensures Invariant(Run(s, events))
    ensures |Run(s, events).timers| <= 1
    decreases |events|
  {
    if events != [] {
      var e := events[0];
      match e {
        case StartClick(a, b) => StartInvariant(s, a, b);
        case StopClicked => StopInvariant(s);
        case Fire(h) => PollInvariant(s, h);
        case PlayheadMoved(t) =>
        case Ended =>
      }
      RunInvariant(Step(s, e), events[1..]);
    }
    var r := Run(s, events);
    if r.loopInterval.Some? {
      assert r.timers.Keys == {r.loopInterval.value};
    }
  }

  /** Every firing of the script's interval leaves the playhead before B. */
  lemma {:induction false} FireKeepsBeforeB(s: LoopState, events: seq<Event>)
    requires Invariant(s)
    requires Run(s, events).loopInterval.Some?
    ensures var r := Run(s, events);
      var h := r.loopInterval.value;
      h in r.timers && Poll(r, h).video.Some? && Poll(r, h).video.value.currentTime < r.timers[h].b
  {
    RunInvariant(s, events);
  }

  /** duration 120, A = 10, B = 20: seek to 10; at 20.1 the next tick seeks back to 10. */
  lemma ScenarioReseek()
    ensures var s := Initial(Some(Playhead(0.0, 120.0, true)));
      var started := Start(s, Some(10.0), Some(20.0));
      var t := started.1;
      var moved := Step(t, PlayheadMoved(20.1));
      started.0 == Accept(Range(10.0, 20.0)) &&
      t.video == Some(Playhead(10.0, 120.0, false)) &&
      Poll(moved, 1).video == Some(Playhead(10.0, 120.0, false))
  {
  }

  /**
   * B may equal the duration. The playhead then reaches B only when the
   * media ends, which pauses it; the next tick seeks back to A but does
   * not resume, so the loop stands still at A.
   */
  lemma ScenarioEndAtDuration()
    ensures var s := Initial(Some(Playhead(0.0, 120.0, true)));
      var started := Start(s, Some(100.0), Some(120.0));
      var ended := Step(started.1, Ended);
      started.0 == Accept(Range(100.0, 120.0)) &&
      Poll(ended, 1).video == Some(Playhead(100.0, 120.0, true))
  {
  }

  /** A = 30, B = 20 is refused and no interval is registered. */
  lemma ScenarioReversed()
    ensures var s := Initial(Some(Playhead(5.0, 120.0, false)));
      Start(s, Some(30.0), Some(20.0)) == (Reject(OutOfRange), s) &&
      s.timers == map[]
  {
  }

  /**
   * The controller object: the video it found (null when the page has
   * none), the module-level loopInterval and the browser's interval table.
   */
  class LoopController {
    const video: Video?
    var loopInterval: Option<nat>
    var timers: map<nat, Range>
    var nextHandle: nat

    function State(): LoopState
      reads this, video
    {
      LoopState(
        if video == null then None else Some(Playhead(video.currentTime, video.duration, video.paused)),
        loopInterval, timers, nextHandle)
    }

    predicate Valid()
      reads this, video
    {
      Invariant(State())
    }

    constructor (video: Video?)
      ensures this.video == video
      ensures State() == Initial(old(if video == null then None else Some(Playhead(video.currentTime, video.duration, video.paused))))
      ensures Valid()
    {
      this.video := video;
      loopInterval := None;
      timers := map[];
      nextHandle := 1;
    }

    method StartLoop(a: Option<real>, b: Option<real>) returns (verdict: Verdict)
      requires Valid()
      modifies this, video
      ensures Valid()
      ensures (verdict, State()) == Start(old(State()), a, b)
      ensures video != null ==> video.playbackRate == old(video.playbackRate)
    {
      StartInvariant(State(), a, b);
      if video == null {
        verdict := Reject(NoVideo);
        return;
      }
      if a.None? || b.None? {
        verdict := Reject(InvalidNumber);
        return;
      }
      var pointA, pointB := a.value, b.value;
      if pointA < 0.0 || pointB <= pointA || pointB > video.duration {
        verdict := Reject(OutOfRange);
        return;
      }
      video.currentTime := pointA;
      video.paused := false;
      if loopInterval.Some? {
        timers := timers - {loopInterval.value};
      }
      loopInterval := Some(nextHandle);
      timers := timers[nextHandle := Range(pointA, pointB)];
      nextHandle := nextHandle + 1;
      verdict := Accept(Range(pointA, pointB));
    }

    /** The browser fires interval `handle`. */
    method Tick(handle: nat)
      requires Valid()
      modifies video
      ensures Valid()
      ensures State() == Poll(old(State()), handle)
      ensures video != null ==> video.playbackRate == old(video.playbackRate)
    {
      PollInvariant(State(), handle);
      if handle in timers && video != null {
        var range := timers[handle];
        if video.currentTime >= range.b {
          video.currentTime := range.a;
        }
      }
    }

    method StopLoop()
      requires Valid()
      modifies this
      ensures Valid()
      ensures State() == Stop(old(State()))
    {
      StopInvariant(State());
      if loopInterval.Some? {
        timers := timers - {loopInterval.value};
        loopInterval := None;
      }
    }

    /** The stop button's handler: stopLoop, then pause. */
    method StopButton()
      requires Valid()
      modifies this, video
      ensures Valid()
      ensures State() == StopClick(old(State()))
      ensures video != null ==> video.playbackRate == old(video.playbackRate)
    {
      StopLoop();
      if video != null {
        video.paused := true;
      }
    }
  }
}
