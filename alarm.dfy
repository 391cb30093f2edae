/**
 * The alarm's state machine (`AudioEngine.playAlarm`, `stopAlarm`, `toggleMute` in
 * js/timer.js) as values. Besides the engine's own fields `isMuted` and `intervalId`
 * the state records the browser's side of the story: the alarm intervals that
 * `setInterval` has armed and `clearInterval` has not yet cleared (`armed`), and how
 * many handles have been issued so far (`issued`), so that a fresh handle is
 * `issued + 1`. Handles are positive, as browsers issue them, so the source's
 * truthiness test `if (this.intervalId)` is exactly "a handle is present".
 */
module AlarmModel {
  import opened Options

  type Handle = h: int | h > 0 witness 1

  datatype AlarmState = AlarmState(isMuted: bool, intervalId: Option<Handle>, armed: set<Handle>, issued: nat)

  /** The engine as the page creates it: unmuted, no interval. */
  const Initial: AlarmState := AlarmState(false, None, {}, 0)

  /** The stored handle is one the browser still has armed, and every armed handle was issued. */
  predicate Valid(a: AlarmState) {
    (a.intervalId.Some? ==> a.intervalId.value in a.armed) &&
    (forall h :: h in a.armed ==> h <= a.issued)
  }

  /** The alarm is repeating: some alarm interval is still armed in the browser. */
  predicate Sounding(a: AlarmState) {
    a.armed != {}
  }

  /**
   * `playAlarm`: muted, it arms nothing; unmuted, it arms a new one-second interval
   * and overwrites `intervalId` with its handle without clearing the previous one.
   */
  function PlayAlarm(a: AlarmState): (r: AlarmState)
    ensures r.isMuted == a.isMuted
    ensures a.isMuted ==> r == a
    ensures !a.isMuted ==> r.intervalId.Some? && r.issued == a.issued + 1
    ensures Valid(a) && !a.isMuted ==> r.intervalId.value !in a.armed
    ensures !a.isMuted ==> r.armed == a.armed + {r.intervalId.value} && Sounding(r)
    ensures Valid(a) ==> Valid(r)
  {
    if a.isMuted then a
    else
      var h: Handle := a.issued + 1;
      AlarmState(a.isMuted, Some(h), a.armed + {h}, a.issued + 1)
  }

  /** `stopAlarm`: clears the stored interval, if there is one, and forgets its handle. */
  function StopAlarm(a: AlarmState): (r: AlarmState)
    ensures r.intervalId == None && r.isMuted == a.isMuted && r.issued == a.issued
    ensures a.intervalId.Some? ==> r.armed == a.armed - {a.intervalId.value}
    ensures a.intervalId.None? ==> r == a
    ensures Valid(a) ==> Valid(r)
  {
    match a.intervalId
    case Some(h) => a.(intervalId := None, armed := a.armed - {h})
    case None => a
  }

  /** `toggleMute`: flips the flag and nothing else; the flipped value is returned. */
  function ToggleMute(a: AlarmState): (r: AlarmState)
    ensures r.isMuted == !a.isMuted
    ensures r.intervalId == a.intervalId && r.armed == a.armed && r.issued == a.issued
    ensures Valid(a) ==> Valid(r)
  {
    a.(isMuted := !a.isMuted)
  }

  lemma ToggleMuteTwice(a: AlarmState)
    ensures ToggleMute(ToggleMute(a)) == a
  {
  }

  /** Stopping twice is stopping once. */
  lemma StopAlarmIdempotent(a: AlarmState)
    ensures StopAlarm(StopAlarm(a)) == StopAlarm(a)
  {
  }

  /** A muted engine stays silent: playing arms no interval and changes nothing. */
  lemma MutedPlayIsSilent(a: AlarmState)
    requires a.isMuted && !Sounding(a)
    ensures !Sounding(PlayAlarm(a)) && PlayAlarm(a).intervalId == a.intervalId
  {
  }

  /** From silence, one unmuted play followed by a stop is silent again. */
  lemma PlayThenStopSilences(a: AlarmState)
    requires Valid(a) && !Sounding(a)
    ensures !Sounding(StopAlarm(PlayAlarm(a)))
  {
  }

  /**
   * A second unmuted play overwrites the handle of the first without clearing it:
   * a later stop clears only the newer interval, and the older one keeps repeating.
   */
  lemma PlayOverwritesHandle(a: AlarmState, h: Handle)
    requires Valid(a) && !a.isMuted && a.intervalId == Some(h)
    ensures h in StopAlarm(PlayAlarm(a)).armed && Sounding(StopAlarm(PlayAlarm(a)))
  {
  }
}

/** The `AudioEngine` object: its fields change in place; each method is its `AlarmModel` step. */
module AlarmEngine {
  import opened Options
  import opened AlarmModel

  class AudioEngine {
    var isMuted: bool
    var intervalId: Option<Handle>
    var armed: set<Handle>
    var issued: nat

    function State(): AlarmState
      reads this
    {
      AlarmState(isMuted, intervalId, armed, issued)
    }

    constructor ()
      ensures State() == AlarmModel.Initial
    {
      isMuted, intervalId, armed, issued := false, None, {}, 0;
    }

    method PlayAlarm()
      modifies this
      ensures State() == AlarmModel.PlayAlarm(old(State()))
    {
      if isMuted {
        return;
      }
      var h: Handle := issued + 1;
      issued := h;
      armed := armed + {h};
      intervalId := Some(h);
    }

    method StopAlarm()
      modifies this
      ensures State() == AlarmModel.StopAlarm(old(State()))
    {
      if intervalId.Some? {
        armed := armed - {intervalId.value};
        intervalId := None;
      }
    }

    method ToggleMute() returns (muted: bool)
      modifies this
      ensures State() == AlarmModel.ToggleMute(old(State()))
      ensures muted == isMuted
    {
      isMuted := !isMuted;
      muted := isMuted;
    }
  }
}
