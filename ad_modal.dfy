/** The simulated advertisement: a five-second countdown that enables "complete" only at zero. */
module AdModal {

  /** The ad's length in seconds, and the countdown's starting value. */
  const AdSeconds := 5

  /** The modal's countdown state: seconds left, whether completing is allowed, and whether the
      one-second interval is running. */
  datatype Countdown = Countdown(timeLeft: int, canSkip: bool, running: bool)

  /** The state the effect puts the modal in while it is closed. */
  const Reset := Countdown(AdSeconds, false, false)

  /** The countdown as the modal keeps it: seconds in 0..5, `canSkip` set exactly at zero, and the
      interval never running past it. */
  predicate Wellformed(c: Countdown)
  {
    && 0 <= c.timeLeft <= AdSeconds
    && (c.canSkip <==> c.timeLeft == 0)
    && (c.running ==> !c.canSkip)
  }

  /** One interval callback: above one second it counts down; at one second or less it lands on
      zero, allows completing and clears the interval. */
  function TickOf(c: Countdown): Countdown
  {
    if c.timeLeft <= 1 then Countdown(0, true, false)
    else Countdown(c.timeLeft - 1, c.canSkip, c.running)
  }

  /** `n` seconds of the interval: ticks happen only while it runs. */
  function Ticks(c: Countdown, n: nat): Countdown
    decreases n
  {
    if n == 0 || !c.running then c else Ticks(TickOf(c), n - 1)
  }

  /** A tick keeps the countdown well formed and takes the seconds left down. */
  lemma TickKeepsWellformed(c: Countdown)
    requires Wellformed(c) && c.running
    ensures Wellformed(TickOf(c))
    ensures TickOf(c).timeLeft < c.timeLeft
  {
  }

  /** Opened fresh, after `n` seconds the ad shows `5 - n` seconds left and cannot be completed for
      `n < 5`; from the fifth second on it shows zero, can be completed, and the interval is gone. */
  lemma {:induction false} CountdownRun(n: nat)
    ensures n < AdSeconds ==> Ticks(Countdown(AdSeconds, false, true), n) == Countdown(AdSeconds - n, false, true)
    ensures n >= AdSeconds ==> Ticks(Countdown(AdSeconds, false, true), n) == Countdown(0, true, false)
  {
    RunFrom(AdSeconds, n);
  }

  lemma {:induction false} RunFrom(t: int, n: nat)
    requires 1 <= t <= AdSeconds
    ensures n < t ==> Ticks(Countdown(t, false, true), n) == Countdown(t - n, false, true)
    ensures n >= t ==> Ticks(Countdown(t, false, true), n) == Countdown(0, true, false)
  {
    if n > 0 {
      if t > 1 {
        RunFrom(t - 1, n - 1);
      } else {
        assert Ticks(Countdown(t, false, true), n) == Ticks(Countdown(0, true, false), n - 1);
      }
    }
  }

  class AdModal {
    var timeLeft: int
    var canSkip: bool
    var timerActive: bool
    var isOpen: bool

    function Clock(): Countdown
      reads this
    {
      Countdown(timeLeft, canSkip, timerActive)
    }

    /** Closed, the modal sits at the reset state; open, its interval runs until zero. */
    ghost predicate Valid()
      reads this
    {
      && Wellformed(Clock())
      && (!isOpen ==> Clock() == Reset)
      && (isOpen ==> (timerActive <==> !canSkip))
    }

    /** Mounting with the `isOpen` the parent passes: the state starts at (5, false) and the effect
        runs once, starting the interval when open. */
    constructor (open: bool)
      ensures isOpen == open
      ensures Clock() == Countdown(AdSeconds, false, open)
      ensures Valid()
    {
      timeLeft := AdSeconds;
      canSkip := false;
      timerActive := open;
      isOpen := open;
    }

    /** The parent changing `isOpen`. The effect reruns only on a change: closing clears the
        interval and resets the countdown to (5, false); opening starts a fresh interval. */
    method SetOpen(open: bool)
      requires Valid()
      modifies this
      ensures Valid() && isOpen == open
      ensures open == old(isOpen) ==> Clock() == old(Clock())
      ensures open != old(isOpen) && !open ==> Clock() == Reset
      ensures open != old(isOpen) && open ==> Clock() == Countdown(AdSeconds, false, true)
    {
      if open != isOpen {
        isOpen := open;
        if !open {
          timeLeft := AdSeconds;
          canSkip := false;
          timerActive := false;
        } else {
          timerActive := true;
        }
      }
    }

    /** The interval firing, which it does only while active (and so only while open). */
    method Tick()
      requires Valid() && timerActive
      modifies this`timeLeft, this`canSkip, this`timerActive
      ensures Valid()
      ensures Clock() == TickOf(old(Clock()))
      ensures timeLeft < old(timeLeft)
    {
      TickKeepsWellformed(Clock());
      if timeLeft <= 1 {
        timerActive := false;
        canSkip := true;
        timeLeft := 0;
      } else {
        timeLeft := timeLeft - 1;
      }
    }

    /** "Complete" is disabled until the countdown allows skipping. */
    function CompleteEnabled(): (r: bool)
      requires Valid()
      reads this
      ensures r <==> timeLeft == 0
      ensures r ==> isOpen && !timerActive
    {
      canSkip
    }
  }
}
