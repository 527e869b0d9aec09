/**
 * The activity timer dialog (client/src/components/activities/activity-timer.tsx): the
 * `MM:SS` rendering of the seconds left, and the countdown state that the interval tick,
 * the reopen effect and the buttons update.
 */
module ActivityTimer {
  import opened Text
  import opened Schema

  /** The seconds field: two digits, a leading zero below 10. */
  function SecondsField(secs: nat): string {
    (if secs < 10 then "0" else "") + DecimalString(secs)
  }

  /** `formatTime(seconds)`: whole minutes, a colon, then the remaining seconds on two digits. */
  function FormatTime(seconds: nat): (r: string)
    ensures r == DecimalString(seconds / 60) + ":" + SecondsField(seconds % 60)
  {
    DecimalString(seconds / 60) + ":" + (if seconds % 60 < 10 then "0" else "") + DecimalString(seconds % 60)
  }

  predicate AllDigits(s: string) {
    forall i :: 0 <= i < |s| ==> IsDigit(s[i])
  }

  lemma DecimalLength(n: nat)
    requires n < 100
    ensures n < 10 ==> |DecimalString(n)| == 1
    ensures 10 <= n ==> |DecimalString(n)| == 2
  {
    if n >= 10 {
      assert DecimalString(n) == DecimalString(n / 10) + [DigitChar(n % 10)];
    }
  }

  /** The seconds field is always two digits and reads back as the seconds. */
  lemma SecondsFieldReadsBack(secs: nat)
    requires secs < 60
    ensures |SecondsField(secs)| == 2 && AllDigits(SecondsField(secs))
    ensures DigitsValue(SecondsField(secs)) == secs
  {
    DecimalLength(secs);
    DigitsValueOfDecimal(secs);
    var f := SecondsField(secs);
    if secs < 10 {
      var d := DecimalString(secs);
      assert f == ['0'] + d;
      assert DigitValue('0') == 0;
      assert f[..1] == ['0'];
      assert d[..0] == [];
      assert DigitsValue(f[..1]) == 0 by {
        assert f[..1][..0] == [];
      }
      assert DigitsValue(d) == DigitsValue(d[..0]) * 10 + DigitValue(d[0]);
    }
  }

  /**
   * The rendering can be read back: the text before the colon is the minutes, the two digits
   * after it the seconds, and minutes * 60 + seconds gives the original count.
   */
  lemma FormatTimeReadsBack(seconds: nat)
    ensures var r := FormatTime(seconds);
      |r| >= 4 && r[|r| - 3] == ':' &&
      AllDigits(r[..|r| - 3]) && AllDigits(r[|r| - 2..]) &&
      DigitsValue(r[|r| - 2..]) < 60 &&
      DigitsValue(r[..|r| - 3]) * 60 + DigitsValue(r[|r| - 2..]) == seconds
  {
    var m := DecimalString(seconds / 60);
    var f := SecondsField(seconds % 60);
    SecondsFieldReadsBack(seconds % 60);
    DigitsValueOfDecimal(seconds / 60);
    var r := FormatTime(seconds);
    assert r == m + ":" + f;
    assert r[..|r| - 3] == m;
    assert r[|r| - 2..] == f;
  }

  /** What can happen to an open or closed timer dialog. */
  datatype TimerEvent = Opened | Closed | PressedStart | PressedPause | PressedComplete | Ticked

  class Timer {
    const activity: Activity
    /** The dialog's `isOpen` prop. */
    var isOpen: bool
    var timeLeft: int
    var isPaused: bool
    var isCompleted: bool
    var isStarted: bool
    /** How many times `onComplete` has been called. */
    var completions: nat

    /** The timer belongs to an activity with a duration, and the countdown never leaves [0, duration * 60]. */
    ghost predicate Valid()
      reads this
    {
      activity.duration > 0 && 0 <= timeLeft <= activity.duration * 60
    }

    /** The card mounts a timer only for an activity with a positive duration. */
    constructor(activity: Activity, isOpen: bool)
      requires activity.duration > 0
      ensures Valid()
      ensures this.activity == activity && this.isOpen == isOpen
      ensures timeLeft == activity.duration * 60
      ensures !isPaused && !isCompleted && !isStarted && completions == 0
    {
      this.activity := activity;
      this.isOpen := isOpen;
      timeLeft := activity.duration * 60;
      isPaused := false;
      isCompleted := false;
      isStarted := false;
      completions := 0;
    }

    /** The timer only runs while open, not paused and not completed (the start button is not consulted). */
    predicate Ticking()
      reads this`isOpen, this`isPaused, this`isCompleted
    {
      isOpen && !isPaused && !isCompleted
    }

    /** The reset effect when the dialog is (re)opened. */
    method Open()
      requires Valid()
      modifies this`isOpen, this`timeLeft, this`isPaused, this`isCompleted, this`isStarted
      ensures Valid()
      ensures isOpen && timeLeft == activity.duration * 60
      ensures !isPaused && !isCompleted && !isStarted
    {
      isOpen := true;
      timeLeft := activity.duration * 60;
      isPaused := false;
      isCompleted := false;
      isStarted := false;
    }

    method Close()
      requires Valid()
      modifies this`isOpen
      ensures Valid()
      ensures !isOpen
    {
      isOpen := false;
    }

    method Start()
      requires Valid()
      modifies this`isStarted
      ensures Valid()
      ensures isStarted
    {
      isStarted := true;
    }

    method TogglePause()
      requires Valid()
      modifies this`isPaused
      ensures Valid()
      ensures isPaused == !old(isPaused)
    {
      isPaused := !isPaused;
    }

    /** `handleComplete`: marks the activity completed and calls `onComplete`. */
    method HandleComplete()
      requires Valid()
      modifies this`isCompleted, this`completions
      ensures Valid()
      ensures isCompleted && completions == old(completions) + 1
    {
      isCompleted := true;
      completions := completions + 1;
    }

    /** The "Start" button is shown in the open dialog before the countdown is started. */
    predicate StartOffered()
      reads this`isOpen, this`isCompleted, this`isStarted
    {
      isOpen && !isCompleted && !isStarted
    }

    /** The "Pause"/"Resume" button is shown in the open dialog during the countdown. */
    predicate PauseOffered()
      reads this`isOpen, this`isCompleted, this`isStarted
    {
      isOpen && isStarted && !isCompleted
    }

    /** The manual "Complete" button is shown during the countdown of any non-breathing activity. */
    predicate CompleteOffered()
      reads this`isOpen, this`isCompleted, this`isStarted
      ensures CompleteOffered() ==> PauseOffered() && activity.activityType != "breathing"
    {
      PauseOffered() && activity.activityType != "breathing"
    }

    /** The "Complete" button's `onClick`: `handleComplete`, pressed while the button is shown. */
    method PressComplete()
      requires Valid() && CompleteOffered()
      modifies this`isCompleted, this`completions
      ensures Valid()
      ensures isCompleted && completions == old(completions) + 1
      ensures activity.activityType != "breathing"
    {
      HandleComplete();
    }

    /**
     * One interval tick: nothing unless the timer is running; from 1 second or less it stops
     * at 0 and completes (calling `onComplete` once); otherwise it counts down by one second.
     */
    method Tick()
      requires Valid()
      modifies this`timeLeft, this`isCompleted, this`completions
      ensures Valid()
      ensures !old(Ticking()) ==>
        timeLeft == old(timeLeft) && isCompleted == old(isCompleted) && completions == old(completions)
      ensures old(Ticking()) && old(timeLeft) <= 1 ==>
        timeLeft == 0 && isCompleted && completions == old(completions) + 1
      ensures old(Ticking()) && old(timeLeft) > 1 ==>
        timeLeft == old(timeLeft) - 1 && !isCompleted && completions == old(completions)
    {
      if !Ticking() {
        return;
      }
      if timeLeft <= 1 {
        timeLeft := 0;
        isCompleted := true;
        HandleComplete();
      } else {
        timeLeft := timeLeft - 1;
      }
    }

    /**
     * One thing that can happen to the dialog: the card opens or closes it, the user presses one
     * of its buttons, or the interval fires. A button press does nothing unless that button is shown.
     */
    method Dispatch(e: TimerEvent)
      requires Valid()
      modifies this`isOpen, this`timeLeft, this`isPaused, this`isCompleted, this`isStarted, this`completions
      ensures Valid()
      ensures completions == old(completions) || completions == old(completions) + 1
      ensures completions == old(completions) + 1 ==>
        || (e == Ticked && old(Ticking()) && old(timeLeft) <= 1)
        || (e == PressedComplete && old(CompleteOffered()))
      ensures activity.activityType == "breathing" && completions != old(completions) ==>
        e == Ticked && old(Ticking()) && old(timeLeft) <= 1
      ensures old(isCompleted) && e != Opened ==> isCompleted && completions == old(completions)
      ensures || (e == PressedStart && !old(StartOffered()))
              || (e == PressedPause && !old(PauseOffered()))
              || (e == PressedComplete && !old(CompleteOffered()))
              || (e == Opened && old(isOpen)) ==>
        unchanged(this)
      ensures e == Opened && !old(isOpen) ==>
        isOpen && timeLeft == activity.duration * 60 && !isPaused && !isCompleted && !isStarted
        && completions == old(completions)
      ensures e == Closed ==> !isOpen && completions == old(completions)
      ensures e == PressedStart && old(StartOffered()) ==> isStarted && completions == old(completions)
      ensures e == PressedPause && old(PauseOffered()) ==> isPaused == !old(isPaused) && completions == old(completions)
    {
      match e
      case Opened =>
        if !isOpen {
          Open();
        }
      case Closed =>
        Close();
      case PressedStart =>
        if StartOffered() {
          Start();
        }
      case PressedPause =>
        if PauseOffered() {
          TogglePause();
        }
      case PressedComplete =>
        if CompleteOffered() {
          PressComplete();
        }
      case Ticked =>
        Tick();
    }

    /** Ticking from a fresh countdown calls `onComplete` exactly once, after duration * 60 ticks. */
    method RunToEnd() returns (ticks: nat)
      requires Valid() && Ticking() && timeLeft > 0
      modifies this`timeLeft, this`isCompleted, this`completions
      ensures ticks == old(timeLeft)
      ensures timeLeft == 0 && isCompleted && completions == old(completions) + 1
    {
      ticks := 0;
      while !isCompleted
        invariant Valid() && isOpen && !isPaused
        invariant !isCompleted ==> timeLeft == old(timeLeft) - ticks && timeLeft > 0 && completions == old(completions)
        invariant isCompleted ==> ticks == old(timeLeft) && timeLeft == 0 && completions == old(completions) + 1
        decreases timeLeft, !isCompleted
      {
        Tick();
        ticks := ticks + 1;
      }
    }
  }
}
