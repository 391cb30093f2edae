/**
 * The countdown's state machine (`Timer.start`, `tick`, `pause`, `reset`, `complete`,
 * `dismissAlarm` in js/timer.js) as values. The state is the object's fields
 * `totalSeconds`, `remainingSeconds`, `isRunning`, `isPaused`, whether the one-second
 * tick interval is armed, and the readout text that `updateDisplay` last wrote.
 * The alarm engine's state is passed along where the timer calls into it.
 */
module TimerModel {
  import opened Options
  import opened Display
  import opened AlarmModel

  datatype TimerState = TimerState(
    totalSeconds: int,
    remainingSeconds: int,
    isRunning: bool,
    isPaused: bool,
    tickArmed: bool,
    display: string)

  /** The timer as the page sets it up: idle, zero seconds, showing 00:00:00. */
  const Initial: TimerState := TimerState(0, 0, false, false, false, Format(0))

  /**
   * What every operation except `Complete` keeps (`Complete` keeps it only when the
   * count has reached zero, which is the one case `Tick` calls it in): never running
   * and paused at once; the tick interval
   * is armed exactly while running; a started run (running or paused) has between 1
   * and `totalSeconds` seconds left, and otherwise none are left.
   */
  predicate Valid(t: TimerState) {
    !(t.isRunning && t.isPaused) &&
    t.tickArmed == t.isRunning &&
    if t.isRunning || t.isPaused then 1 <= t.remainingSeconds <= t.totalSeconds
    else t.remainingSeconds == 0
  }

  /** `parseInt(field.value) || 0`, with the parse already done: no number reads as 0. */
  function FieldValue(field: Option<int>): int {
    field.GetOr(0)
  }

  /** The duration the three input fields ask for; negative fields are not rejected. */
  function RequestedSeconds(h: Option<int>, m: Option<int>, s: Option<int>): int {
    FieldValue(h) * 3600 + FieldValue(m) * 60 + FieldValue(s)
  }

  /** Which branch `start` took; `Rejected` is the one that shakes the inputs. */
  datatype StartOutcome = AlreadyRunning | Resumed | Started | Rejected

  /**
   * `start`: a no-op while running; from paused it resumes without reading the
   * inputs; otherwise it stores the requested duration in `totalSeconds` and, only if
   * that is positive, begins a run of that many seconds.
   */
  function Start(t: TimerState, h: Option<int>, m: Option<int>, s: Option<int>): (r: (TimerState, StartOutcome))
    ensures t.isRunning && !t.isPaused ==> r == (t, AlreadyRunning)
    ensures t.isPaused ==>
      r.1 == Resumed && r.0.isRunning && !r.0.isPaused && r.0.tickArmed &&
      r.0.remainingSeconds == t.remainingSeconds && r.0.totalSeconds == t.totalSeconds &&
      r.0.display == t.display
    ensures !t.isRunning && !t.isPaused && RequestedSeconds(h, m, s) > 0 ==>
      r.1 == Started && r.0.isRunning && !r.0.isPaused && r.0.tickArmed &&
      r.0.totalSeconds == RequestedSeconds(h, m, s) && r.0.remainingSeconds == RequestedSeconds(h, m, s) &&
      r.0.display == t.display
    ensures !t.isRunning && !t.isPaused && RequestedSeconds(h, m, s) <= 0 ==>
      r.1 == Rejected && r.0 == t.(totalSeconds := RequestedSeconds(h, m, s))
    ensures Valid(t) ==> Valid(r.0)
  {
    if t.isRunning && !t.isPaused then (t, AlreadyRunning)
    else if t.isPaused then (t.(isRunning := true, isPaused := false, tickArmed := true), Resumed)
    else
      var total := RequestedSeconds(h, m, s);
      if total <= 0 then (t.(totalSeconds := total), Rejected)
      else (t.(totalSeconds := total, remainingSeconds := total,
               isRunning := true, isPaused := false, tickArmed := true), Started)
  }

  /** `complete`: disarm the tick interval, stop running, show zero and play the alarm. */
  function Complete(t: TimerState, a: AlarmState): (r: (TimerState, AlarmState))
    ensures !r.0.isRunning && !r.0.tickArmed && r.0.display == "00:00:00"
    ensures r.0.isPaused == t.isPaused && r.0.totalSeconds == t.totalSeconds
    ensures r.0.remainingSeconds == t.remainingSeconds
    ensures r.1 == PlayAlarm(a)
    ensures t.isRunning && !t.isPaused && 0 == t.remainingSeconds <= t.totalSeconds ==> Valid(r.0)
  {
    FormatExamples();
    (t.(tickArmed := false, isRunning := false, display := Format(0)), PlayAlarm(a))
  }

  /**
   * `tick`, fired by the armed interval: one second less and the readout updated; the
   * second that reaches zero completes the run and plays the alarm, once.
   */
  function Tick(t: TimerState, a: AlarmState): (r: (TimerState, AlarmState))
    requires Valid(t) && t.isRunning
    ensures r.0.remainingSeconds == t.remainingSeconds - 1 >= 0
    ensures r.0.totalSeconds == t.totalSeconds && !r.0.isPaused
    ensures r.0.display == Format(r.0.remainingSeconds)
    ensures r.0.isRunning <==> t.remainingSeconds > 1
    ensures r.1 == if r.0.isRunning then a else PlayAlarm(a)
    ensures Valid(r.0)
  {
    var left := t.remainingSeconds - 1;
    var t1 := t.(remainingSeconds := left, display := Format(left));
    if left <= 0 then Complete(t1, a) else (t1, a)
  }

  /** `pause`: only while running; disarms the tick and keeps the count as it is. */
  function Pause(t: TimerState): (r: TimerState)
    ensures !t.isRunning ==> r == t
    ensures t.isRunning ==>
      r.isPaused && !r.isRunning && !r.tickArmed &&
      r.remainingSeconds == t.remainingSeconds && r.totalSeconds == t.totalSeconds &&
      r.display == t.display
    ensures Valid(t) ==> Valid(r)
  {
    if !t.isRunning then t
    else t.(tickArmed := false, isPaused := true, isRunning := false)
  }

  /**
   * `reset`, from any state: back to the page's initial timer, with the alarm
   * stopped and the mute setting kept.
   */
  function Reset(t: TimerState, a: AlarmState): (r: (TimerState, AlarmState))
    ensures r.0 == Initial && Valid(r.0)
    ensures r.0.totalSeconds == 0 && r.0.remainingSeconds == 0 && r.0.display == "00:00:00"
    ensures !r.0.isRunning && !r.0.isPaused && !r.0.tickArmed
    ensures r.1 == StopAlarm(a) && r.1.intervalId == None && r.1.isMuted == a.isMuted
  {
    FormatExamples();
    (t.(tickArmed := false, isRunning := false, isPaused := false,
        remainingSeconds := 0, totalSeconds := 0, display := Format(0)), StopAlarm(a))
  }

  /** `dismissAlarm`: stop the alarm, then reset; the same end state as `reset`. */
  function DismissAlarm(t: TimerState, a: AlarmState): (r: (TimerState, AlarmState))
    ensures r == Reset(t, a)
  {
    Reset(t, StopAlarm(a))
  }

  /** `t` after `k` ticks of its interval (which fires only while the timer runs). */
  function Ticks(t: TimerState, a: AlarmState, k: nat): (TimerState, AlarmState)
    requires Valid(t) && (k > 0 ==> t.isRunning && k <= t.remainingSeconds)
    decreases k
  {
    if k == 0 then (t, a)
    else
      var r := Tick(t, a);
      Ticks(r.0, r.1, k - 1)
  }

  // ---------------------------------------------------------------------------
  // Properties across several operations

  /** Resuming after a pause gives back exactly the state at pause time, whatever the inputs hold. */
  lemma PauseThenStart(t: TimerState, h: Option<int>, m: Option<int>, s: Option<int>)
    requires Valid(t) && t.isRunning
    ensures Start(Pause(t), h, m, s) == (t, Resumed)
  {
  }

  /** `start` while running leaves everything as it was, whatever the inputs hold. */
  lemma StartWhileRunning(t: TimerState, h: Option<int>, m: Option<int>, s: Option<int>)
    requires Valid(t) && t.isRunning
    ensures Start(t, h, m, s).0 == t
  {
  }

  /**
   * `k` ticks of a running timer with `R` seconds left (`k <= R`): `R - k` are left,
   * the duration is untouched, it keeps running until the `R`-th tick, and the alarm
   * is played exactly once, at that tick.
   */
  lemma {:induction false} TicksCountDown(t: TimerState, a: AlarmState, k: nat)
    requires Valid(t) && t.isRunning && k <= t.remainingSeconds
    ensures Ticks(t, a, k).0.remainingSeconds == t.remainingSeconds - k
    ensures Ticks(t, a, k).0.totalSeconds == t.totalSeconds && !Ticks(t, a, k).0.isPaused
    ensures Ticks(t, a, k).0.isRunning <==> k < t.remainingSeconds
    ensures Ticks(t, a, k).0.tickArmed == Ticks(t, a, k).0.isRunning
    ensures Ticks(t, a, k).1 == if k < t.remainingSeconds then a else PlayAlarm(a)
    ensures k > 0 ==> Ticks(t, a, k).0.display == Format(t.remainingSeconds - k)
    decreases k
  {
    if k > 0 {
      var r := Tick(t, a);
      if k > 1 {
        TicksCountDown(r.0, r.1, k - 1);
      }
    }
  }

  /**
   * After a successful start with total `T`, the first `T - 1` ticks leave the timer
   * running and the alarm untouched; the `T`-th reaches zero, disarms the tick, keeps
   * the total and plays the alarm once.
   */
  lemma StartThenCountdown(t: TimerState, a: AlarmState, h: Option<int>, m: Option<int>, s: Option<int>)
    requires Valid(t) && !t.isRunning && !t.isPaused && RequestedSeconds(h, m, s) > 0
    ensures forall k: nat :: k < RequestedSeconds(h, m, s) ==>
      Ticks(Start(t, h, m, s).0, a, k).0.isRunning && Ticks(Start(t, h, m, s).0, a, k).1 == a
    ensures
      var done := Ticks(Start(t, h, m, s).0, a, RequestedSeconds(h, m, s));
      done.0.remainingSeconds == 0 && !done.0.isRunning && !done.0.isPaused && !done.0.tickArmed &&
      done.0.totalSeconds == RequestedSeconds(h, m, s) && done.0.display == "00:00:00" &&
      done.1 == PlayAlarm(a)
  {
    var started := Start(t, h, m, s).0;
    var total := RequestedSeconds(h, m, s);
    forall k: nat | k < total
      ensures Ticks(started, a, k).0.isRunning && Ticks(started, a, k).1 == a
    {
      TicksCountDown(started, a, k);
    }
    TicksCountDown(started, a, total);
    FormatExamples();
  }

  /** `dismissAlarm` and `reset` both end with the alarm silent when it was sounded once from silence. */
  lemma ResetSilencesSingleAlarm(t: TimerState, a: AlarmState)
    requires AlarmModel.Valid(a) && !Sounding(a)
    ensures !Sounding(Reset(t, PlayAlarm(a)).1)
  {
  }
}

/**
 * The `Timer` object: its fields change in place, and each method is its
 * `TimerModel` step. The inputs are the already-parsed values of the three fields.
 */
module TimerEngine {
  import opened Options
  import opened Display
  import opened AlarmEngine
  import opened TimerModel

  class Timer {
    const audio: AudioEngine
    var totalSeconds: int
    var remainingSeconds: int
    var isRunning: bool
    var isPaused: bool
    var tickArmed: bool
    var display: string

    function State(): TimerState
      reads this
    {
      TimerState(totalSeconds, remainingSeconds, isRunning, isPaused, tickArmed, display)
    }

    /** The object's initial fields, with the readout `init` writes. */
    constructor (audio: AudioEngine)
      ensures State() == TimerModel.Initial && this.audio == audio
    {
      this.audio := audio;
      totalSeconds, remainingSeconds := 0, 0;
      isRunning, isPaused, tickArmed := false, false, false;
      display := Format(0);
    }

    method Start(h: Option<int>, m: Option<int>, s: Option<int>) returns (outcome: StartOutcome)
      modifies this
      ensures (State(), outcome) == TimerModel.Start(old(State()), h, m, s)
    {
      if isRunning && !isPaused {
        return AlreadyRunning;
      }
      outcome := Resumed;
      if !isPaused {
        totalSeconds := RequestedSeconds(h, m, s);
        if totalSeconds <= 0 {
          return Rejected;
        }
        remainingSeconds := totalSeconds;
        outcome := Started;
      }
      isRunning := true;
      isPaused := false;
      tickArmed := true;
    }

    method Tick()
      requires TimerModel.Valid(State()) && isRunning
      modifies this, audio
      ensures (State(), audio.State()) == TimerModel.Tick(old(State()), old(audio.State()))
    {
      remainingSeconds := remainingSeconds - 1;
      display := Format(remainingSeconds);
      if remainingSeconds <= 0 {
        Complete();
      }
    }

    method Pause()
      modifies this
      ensures State() == TimerModel.Pause(old(State()))
    {
      if !isRunning {
        return;
      }
      tickArmed := false;
      isPaused := true;
      isRunning := false;
    }

    method Reset()
      modifies this, audio
      ensures (State(), audio.State()) == TimerModel.Reset(old(State()), old(audio.State()))
    {
      tickArmed := false;
      isRunning := false;
      isPaused := false;
      remainingSeconds := 0;
      totalSeconds := 0;
      display := Format(0);
      audio.StopAlarm();
    }

    method Complete()
      modifies this, audio
      ensures (State(), audio.State()) == TimerModel.Complete(old(State()), old(audio.State()))
    {
      tickArmed := false;
      isRunning := false;
      display := Format(0);
      audio.PlayAlarm();
    }

    method DismissAlarm()
      modifies this, audio
      ensures (State(), audio.State()) == TimerModel.DismissAlarm(old(State()), old(audio.State()))
    {
      audio.StopAlarm();
      Reset();
    }
  }

  /**
   * What a page can rely on from the contracts alone: a two-second run completes on
   * its second tick and sounds the alarm, and dismissing it silences the alarm.
   */
  method TwoSecondRun()
  {
    var audio := new AudioEngine();
    var timer := new Timer(audio);
    var outcome := timer.Start(None, Some(0), Some(2));
    assert outcome == Started && timer.remainingSeconds == 2;
    timer.Tick();
    assert timer.isRunning && timer.display == Format(1);
    timer.Tick();
    assert !timer.isRunning && !timer.tickArmed && audio.armed == {1};
    timer.DismissAlarm();
    assert audio.armed == {} && timer.State() == TimerModel.Initial;
  }
}
