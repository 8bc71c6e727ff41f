/** The world clock of `Core.GameWorld` (Core.py). */
module GameWorld {

  const HoursPerDay: int := 24

  /** `simulate_time_passage`: one hour passes, wrapping to 0 after 23. */
  function SimulateTimePassage(t: int): (r: int)
    ensures 0 <= r < HoursPerDay
    ensures 0 <= t < HoursPerDay - 1 ==> r == t + 1
    ensures t == HoursPerDay - 1 ==> r == 0
    ensures (r - (t + 1)) % HoursPerDay == 0
  {
    (t + 1) % HoursPerDay
  }

  /** The clock after `n` passages. */
  function Passages(t: int, n: nat): int
    decreases n
  {
    if n == 0 then t else SimulateTimePassage(Passages(t, n - 1))
  }

  /** After `n >= 1` passages the clock reads `(t + n) mod 24`; a full day brings an in-range clock back. */
  lemma {:induction false} PassagesModulo(t: int, n: nat)
    requires n >= 1
    ensures Passages(t, n) == (t + n) % HoursPerDay
    decreases n
  {
    if n > 1 {
      PassagesModulo(t, n - 1);
      var p := Passages(t, n - 1);
      assert p == (t + n - 1) % HoursPerDay;
      assert (p + 1) % HoursPerDay == (t + n) % HoursPerDay by {
        ModuloShift(t + n - 1);
      }
    }
  }

  lemma ModuloShift(x: int)
    ensures (x % HoursPerDay + 1) % HoursPerDay == (x + 1) % HoursPerDay
  {
  }

  /** A full day of passages returns an in-range clock to where it started. */
  lemma FullDay(t: int)
    requires 0 <= t < HoursPerDay
    ensures Passages(t, HoursPerDay) == t
  {
    PassagesModulo(t, HoursPerDay);
    DayModulo(t);
  }

  lemma DayModulo(t: int)
    requires 0 <= t < HoursPerDay
    ensures (t + HoursPerDay) % HoursPerDay == t
  {
  }
}
