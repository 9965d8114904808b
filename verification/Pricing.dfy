/** The calculation engine: volumes from dimensions, rental fees, overdue penalties. */
module Pricing {
  import opened Domain
  import opened Quantities

  const MINIMUM_FEE := 50_000
  const DAY := 86_400_000
  const WEEK := 7 * DAY
  const GRACE := 14 * DAY

  function RatePerM3(zone: Zone): nat {
    match zone
    case Standard => 50_000
    case HeavyDuty => 75_000
    case ColdStorage => 150_000
  }

  /** `calculateVolumeM3` on dimensions in 0.01 cm, in 0.0001 m3. */
  function UnitVolume(length: int, width: int, height: int): (v: nat)
    ensures length <= 0 || width <= 0 || height <= 0 ==> v == 0
  {
    if length <= 0 || width <= 0 || height <= 0 then 0
    else ToFixed(length * width * height, 100_000_000)
  }

  /** `calculateTotalVolumeM3`: rounding a whole number of 0.0001 m3 does nothing. */
  function TotalVolume(unit: int, quantity: int): (v: nat)
    ensures 0 < unit && 0 < quantity ==> v == ToFixed(unit * quantity, 1)
  {
    if unit <= 0 || quantity <= 0 then 0 else unit * quantity
  }

  /** `calculateMonthlyRentalFee` in IDR: above the minimum, the nearest whole IDR to volume times
      rate, halves upward. */
  function MonthlyFee(volume: int, rate: int): (fee: int)
    ensures MINIMUM_FEE <= fee
    ensures MINIMUM_FEE < fee ==> 0 < volume && 0 < rate && -5_000 < 10_000 * fee - volume * rate <= 5_000
    ensures 0 < volume && 0 < rate && 10_000 * MINIMUM_FEE + 5_000 <= volume * rate ==> MINIMUM_FEE < fee
  {
    if volume <= 0 || rate <= 0 then MINIMUM_FEE
    else Max(MINIMUM_FEE, (2 * volume * rate + 10_000) / 20_000)
  }

  function DaysOverdue(delay: int): int {
    CeilDiv(delay, DAY)
  }

  function OverdueWeeks(delay: int): int {
    Max(1, CeilDiv(DaysOverdue(delay), 7))
  }

  /** `calculateOverduePenalty`: 5% of the subtotal for each week, to the cent. */
  function Penalty(subtotal: int, weeks: int): int {
    if weeks <= 0 then 0 else ToFixed(subtotal * (5 * weeks), 100)
  }

  /** What a customer owes `delay` ms after the due date. */
  function Owed(subtotal: int, delay: int): int {
    if delay <= 0 then subtotal else subtotal + Penalty(subtotal, OverdueWeeks(delay))
  }

  /** The day ceiling inside the week ceiling is one ceiling: a week counts as soon as it starts. */
  lemma NestedCeilings(delay: int)
    requires 0 < delay
    ensures OverdueWeeks(delay) == CeilDiv(delay, WEEK)
  {
    var days, weeks := DaysOverdue(delay), CeilDiv(delay, WEEK);
    assert (weeks - 1) * WEEK < delay <= weeks * WEEK;
    assert (days - 1) * DAY < delay <= days * DAY;
    assert (weeks - 1) * 7 < days <= weeks * 7;
  }

  lemma PenaltyMonotone(subtotal: int, w1: int, w2: int)
    requires 0 <= subtotal && 0 <= w1 <= w2
    ensures 0 <= Penalty(subtotal, w1) <= Penalty(subtotal, w2)
  {
    assert subtotal * (5 * w1) <= subtotal * (5 * w2) by {
      assert subtotal * (5 * w2) - subtotal * (5 * w1) == subtotal * (5 * (w2 - w1));
    }
  }

  /** What is owed never falls as time passes. */
  lemma OwedMonotone(subtotal: int, d1: int, d2: int)
    requires 0 <= subtotal && d1 <= d2
    ensures subtotal <= Owed(subtotal, d1) <= Owed(subtotal, d2)
  {
    if 0 < d1 {
      NestedCeilings(d1);
      NestedCeilings(d2);
      PenaltyMonotone(subtotal, OverdueWeeks(d1), OverdueWeeks(d2));
    } else if 0 < d2 {
      PenaltyMonotone(subtotal, 0, OverdueWeeks(d2));
    }
  }

  /** For a subtotal in whole IDR the cent rounding is the identity: the penalty is exactly one
      twentieth of the subtotal for each week begun, so it grows by that much at each boundary. */
  lemma PenaltyIsExact(subtotal: int, weeks: nat)
    requires 0 <= subtotal && subtotal % 100 == 0
    ensures Penalty(subtotal, weeks) == subtotal / 20 * weeks
    ensures 20 * Penalty(subtotal, weeks) == subtotal * weeks
  {
    var idr := subtotal / 100;
    assert subtotal == 100 * idr;
    assert subtotal * (5 * weeks) == 100 * (idr * (5 * weeks));
    assert ToFixed(100 * (idr * (5 * weeks)), 100) == idr * (5 * weeks);
    assert subtotal / 20 * weeks == 5 * idr * weeks == idr * (5 * weeks);
  }

  /** The weekly step function: constant inside a week, one step of a twentieth per week. */
  lemma WeeklySteps(subtotal: int, week: nat, into: int)
    requires 0 <= subtotal && subtotal % 100 == 0
    requires 0 < into <= WEEK
    ensures Owed(subtotal, week * WEEK + into) == subtotal + subtotal / 20 * (week + 1)
  {
    var delay := week * WEEK + into;
    NestedCeilings(delay);
    var weeks := OverdueWeeks(delay);
    assert weeks == week + 1 by {
      assert (weeks - 1) * WEEK < delay <= weeks * WEEK;
    }
    PenaltyIsExact(subtotal, weeks);
  }
}
