/**
 * Hold-to-confirm timers. Every variant adds a fixed 16 ms per tracker
 * callback while a gesture is held and the timer is still below its hold
 * constant; the timer is not measured against a clock.
 */
module Hold {

  /** The per-callback increment (nominally one 60 Hz frame). */
  const TICK: int := 16

  /** One held frame of a timer that grows only while below `hold`. */
  function Tick(t: int, hold: int): int { if t < hold then t + TICK else t }

  /** The largest value such a timer reaches: hold + 15 at most. */
  function Cap(hold: int): int { hold + TICK - 1 }

  /** A timer value is a whole number of ticks and at most `bound`. */
  predicate TimerOk(t: int, bound: int) { 0 <= t <= bound && t % TICK == 0 }

  lemma TickKeepsTimerOk(t: int, hold: int)
    requires TimerOk(t, Cap(hold))
    ensures TimerOk(Tick(t, hold), Cap(hold))
  {
  }

  /** The timer after `n` consecutive held frames, starting from zero. */
  function Held(n: nat, hold: int): int
  {
    if n == 0 then 0 else Tick(Held(n - 1, hold), hold)
  }

  /** Number of held frames a hold constant needs: ceil(hold / 16). */
  function FramesToConfirm(hold: nat): nat { (hold + TICK - 1) / TICK }

  function Min(a: int, b: int): int { if a <= b then a else b }

  /**
   * After n held frames the timer is 16 * min(n, ceil(hold / 16)): it
   * stops at the first multiple of 16 that reaches `hold`.
   */
  lemma {:induction false} HeldValue(n: nat, hold: nat)
    ensures Held(n, hold) == TICK * Min(n, FramesToConfirm(hold))
  {
    if n > 0 {
      HeldValue(n - 1, hold);
      var k: int := FramesToConfirm(hold);
      assert TICK * k >= hold && TICK * (k - 1) < hold;
    }
  }

  /**
   * The timer reaches the hold exactly after ceil(hold / 16) held frames:
   * 32 frames for 500 ms, 63 frames for 1000 ms. A branch that checks the
   * timer before ticking it confirms from the following held frame on.
   */
  lemma ConfirmedAfter(n: nat, hold: nat)
    ensures Held(n, hold) >= hold <==> n >= FramesToConfirm(hold)
  {
    HeldValue(n, hold);
    var k: int := FramesToConfirm(hold);
    assert TICK * k >= hold && TICK * (k - 1) < hold;
    if n < k {
      assert TICK * n <= TICK * (k - 1);
    }
  }

  lemma HoldFrames()
    ensures FramesToConfirm(500) == 32 && FramesToConfirm(1000) == 63
  {
  }
}
