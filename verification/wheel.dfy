/** `SpinningWheel.rotate` (src/gui.py): the busy indicator's angle counter. */
module Wheel {

  const Step := 30
  const FullTurn := 360

  /**
   One timer tick: `(angle + 30) % 360`. Python's `%` floors, which for the
   positive modulus 360 agrees with Dafny's Euclidean `%` on every integer.
   */
  function Rotate(angle: int): (a: int)
    ensures 0 <= a < FullTurn
    ensures angle % Step == 0 ==> a % Step == 0
    ensures 0 <= angle < FullTurn - Step ==> a == angle + Step
    ensures FullTurn - Step <= angle < FullTurn ==> a == angle + Step - FullTurn
  {
    (angle + Step) % FullTurn
  }

  /** The angle after `n` ticks. */
  function Ticks(angle: int, n: nat): int {
    if n == 0 then angle else Rotate(Ticks(angle, n - 1))
  }

  /** After `n >= 1` ticks the angle is the start advanced by `30 * n`, reduced mod 360. */
  lemma {:induction false} TicksAdvance(angle: int, n: nat)
    requires n >= 1
    ensures Ticks(angle, n) == (angle + Step * n) % FullTurn
  {
    if n > 1 {
      TicksAdvance(angle, n - 1);
      var x := angle + Step * (n - 1);
      assert (x % FullTurn + Step) % FullTurn == (x + Step) % FullTurn;
    }
  }

  /** Twelve ticks bring any angle in [0, 360) back to where it started. */
  lemma FullCircle(angle: int)
    requires 0 <= angle < FullTurn
    ensures Ticks(angle, 12) == angle
  {
    TicksAdvance(angle, 12);
  }

  /** From the initial angle 0, every reachable angle is in [0, 360) and a multiple of 30. */
  lemma {:induction false} AnglesFromZero(n: nat)
    ensures 0 <= Ticks(0, n) < FullTurn
    ensures Ticks(0, n) % Step == 0
  {
    if n > 0 {
      AnglesFromZero(n - 1);
    }
  }
}
