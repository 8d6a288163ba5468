/**
 * The play/pause session state of dashboard.py:127-152. The session holds
 * whether playback is on and the scrub time; on every run of the script the
 * button may toggle playback, and while playing the scrub time moves on by
 * ten seconds until the time slider shows the end of the window.
 */
module Playback {

  /** The play step and the slider step: ten seconds. */
  const StepSeconds: int := 10

  /** The two session-state fields: whether playback is on, and the scrub time. */
  datatype PlayState = PlayState(playing: bool, time: int)

  /** dashboard.py:144-145: the play/pause button flips playback and leaves the time. */
  function Toggle(s: PlayState): (r: PlayState)
    ensures r.playing != s.playing && r.time == s.time
  {
    s.(playing := !s.playing)
  }

  /**
   * dashboard.py:148-152, one refresh. `shown` is the time the slider
   * returned on this run and `end` the end of the selected window. The step
   * is not clamped to `end`.
   */
  function Tick(s: PlayState, shown: int, end: int): (r: PlayState)
    ensures !s.playing ==> r == s
    ensures s.playing && shown < end ==> r.playing && r.time == s.time + StepSeconds
    ensures s.playing && shown >= end ==> !r.playing && r.time == s.time
  {
    if !s.playing then s
    else if shown < end then s.(time := s.time + StepSeconds)
    else s.(playing := false)
  }

  /** One run of the script: the button (if clicked), then the refresh. */
  function Rerun(s: PlayState, clicked: bool, shown: int, end: int): PlayState
  {
    Tick(if clicked then Toggle(s) else s, shown, end)
  }

  /** Pressing play while the slider already shows the end turns playback on and off again. */
  lemma PlayAtEndIsNoOp(s: PlayState, shown: int, end: int)
    requires !s.playing && shown >= end
    ensures Rerun(s, true, shown, end) == s
  {
  }

  /** `n` refreshes with no click, the slider showing the session's own time each run. */
  function Play(s: PlayState, end: int, n: nat): PlayState
    decreases n
  {
    if n == 0 then s else Play(Tick(s, s.time, end), end, n - 1)
  }

  /** While playback is still on, every refresh has moved the time by exactly one step. */
  lemma {:induction false} PlayAdvancesByStep(s: PlayState, end: int, n: nat)
    requires Play(s, end, n).playing
    ensures Play(s, end, n).time == s.time + StepSeconds * n
    decreases n
  {
    if n > 0 {
      var next := Tick(s, s.time, end);
      if !s.playing || s.time >= end {
        PlayStopped(next, end, n - 1);
      } else {
        PlayAdvancesByStep(next, end, n - 1);
      }
    }
  }

  /** Once playback is off, refreshes change nothing. */
  lemma {:induction false} PlayStopped(s: PlayState, end: int, n: nat)
    requires !s.playing
    ensures Play(s, end, n) == s
  {
    if n > 0 {
      PlayStopped(s, end, n - 1);
    }
  }

  /**
   * Without a clamp the time can pass the end of the window, but by less
   * than one step when it started less than one step past it.
   */
  lemma {:induction false} PlayOvershootBound(s: PlayState, end: int, n: nat)
    requires s.time < end + StepSeconds
    ensures Play(s, end, n).time < end + StepSeconds
    decreases n
  {
    if n > 0 {
      PlayOvershootBound(Tick(s, s.time, end), end, n - 1);
    }
  }

  /** Playback stops by itself once enough refreshes have carried the time to the end. */
  lemma {:induction false} PlayEventuallyStops(s: PlayState, end: int, n: nat)
    requires n >= 1 && s.time + StepSeconds * (n - 1) >= end
    ensures !Play(s, end, n).playing
    decreases n
  {
    var next := Tick(s, s.time, end);
    if !next.playing {
      PlayStopped(next, end, n - 1);
    } else {
      PlayEventuallyStops(next, end, n - 1);
    }
  }

  /** Five refreshes from 00:00:00 with an end of 00:01:40 reach 00:00:50, still playing. */
  lemma FiveTicks()
    ensures Play(PlayState(true, 0), 100, 5) == PlayState(true, 50)
  {
  }

  /** With the window ending at 00:00:15 the time reaches 00:00:20 before playback stops. */
  lemma OvershootExample()
    ensures Play(PlayState(true, 0), 15, 2) == PlayState(true, 20)
    ensures Play(PlayState(true, 0), 15, 3) == PlayState(false, 20)
  {
  }

  /** The session state object that Streamlit keeps across runs. */
  class PlaySession {
    var playing: bool
    var time: int

    function State(): PlayState
      reads this
    {
      PlayState(playing, time)
    }

    /** dashboard.py:127-130: a new session starts paused at the window's start. */
    constructor (start: int)
      ensures State() == PlayState(false, start)
    {
      playing := false;
      time := start;
    }

    /** dashboard.py:144-145 */
    method PressButton()
      modifies this
      ensures State() == Toggle(old(State()))
    {
      playing := !playing;
    }

    /** dashboard.py:148-152 */
    method Refresh(shown: int, end: int)
      modifies this
      ensures State() == Tick(old(State()), shown, end)
    {
      if playing {
        if shown < end {
          time := time + StepSeconds;
        } else {
          playing := false;
        }
      }
    }
  }
}
