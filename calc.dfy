/**
 * The slot calculator of `src/utils/calc.rs`: conversions between Unix
 * timestamps and slot numbers of a chain whose slots all last
 * `slotDuration` seconds.
 *
 * A header carries the timestamp at the END of its slot. The first header
 * of the chain has timestamp `startTimestamp` and occupies slot
 * `slotOffset`, so `startTimestamp` is the end of slot `slotOffset` and the
 * beginning of slot `slotOffset + 1`. Every window is half-open: a
 * timestamp that lies exactly on a boundary belongs to the later slot.
 *
 * The source's `u64` values are modelled as `nat`; overflow is not modelled.
 */
module Calc {
  import opened Wrappers

  /** The three immutable parameters of a chain's slot schedule. */
  datatype SlotCalculator = SlotCalculator(startTimestamp: nat, slotOffset: nat, slotDuration: nat)

  /** A half-open range of timestamps `start..end`. */
  datatype Range = Range(start: nat, end: nat) {
    predicate Contains(t: int) {
      start <= t < end
    }
  }

  /** Every division and remainder in the calculator needs a non-zero duration. */
  predicate Valid(c: SlotCalculator) {
    c.slotDuration > 0
  }

  /** The Holesky preset: block 1, slot 2, timestamp 1695902424. */
  function Holesky(): (c: SlotCalculator)
    ensures Valid(c) && c.slotOffset == 2
  {
    SlotCalculator(1695902424, 2, 12)
  }

  /** The Pecorino host network preset. */
  function PecorinoHost(): (c: SlotCalculator)
    ensures Valid(c) && c.slotOffset == 0
  {
    SlotCalculator(1740681556, 0, 12)
  }

  /** The Ethereum mainnet preset (slot numbering continues across the merge). */
  function Mainnet(): (c: SlotCalculator)
    ensures Valid(c) && c.slotOffset == 4700013
  {
    SlotCalculator(1663224179, 4700013, 12)
  }

  // ---------------------------------------------------------------------
  // Division facts used by the proofs below.

  lemma MulLeft(a: int, b: int, d: int)
    requires a <= b && d >= 0
    ensures a * d <= b * d
  {
    assert b * d - a * d == (b - a) * d;
  }

  /** A quotient and remainder that fit `x == q * d + r` are the ones Dafny computes. */
  lemma DivModUnique(x: int, d: int, q: int, r: int)
    requires d > 0 && 0 <= r < d && x == q * d + r
    ensures x / d == q && x % d == r
  {
    var q', r' := x / d, x % d;
    assert x == q' * d + r';
    if q' < q {
      MulLeft(q' + 1, q, d);
      assert false;
    } else if q < q' {
      MulLeft(q + 1, q', d);
      assert false;
    }
  }

  /** Adding whole multiples of `d` does not change a remainder. */
  lemma ModShift(x: int, k: int, d: int)
    requires d > 0
    ensures (x + k * d) % d == x % d
  {
    DivModUnique(x + k * d, d, x / d + k, x % d);
  }

  // ---------------------------------------------------------------------
  // The calculator.

  /**
   * The half-open window `start..end` of slot `slotNumber`; its end is
   * `startTimestamp` plus one duration per slot after `slotOffset`.
   * The source subtracts without checking, so the slot must not precede
   * `slotOffset` and the window must not start before time zero.
   */
  function SlotWindow(c: SlotCalculator, slotNumber: nat): (r: Range)
    requires slotNumber >= c.slotOffset
    requires (slotNumber - c.slotOffset) * c.slotDuration + c.startTimestamp >= c.slotDuration
    ensures r.end == r.start + c.slotDuration
    ensures slotNumber == c.slotOffset ==> r.end == c.startTimestamp
    ensures slotNumber == c.slotOffset + 1 ==> r.start == c.startTimestamp
  {
    var endOfSlot := (slotNumber - c.slotOffset) * c.slotDuration + c.startTimestamp;
    var startOfSlot := endOfSlot - c.slotDuration;
    Range(startOfSlot, endOfSlot)
  }

  /** The requires of `SlotWindow` hold for every slot after `slotOffset`. */
  lemma SlotWindowDefined(c: SlotCalculator, slotNumber: nat)
    requires slotNumber > c.slotOffset
    ensures (slotNumber - c.slotOffset) * c.slotDuration + c.startTimestamp >= c.slotDuration
  {
    MulLeft(1, slotNumber - c.slotOffset, c.slotDuration);
  }

  /**
   * The slot containing timestamp `t`: none before the chain's start,
   * otherwise a slot after `slotOffset` whose window holds `t`.
   * The source only divides once `t` is past the start.
   */
  function TimeToSlot(c: SlotCalculator, t: nat): (r: Option<nat>)
    requires t < c.startTimestamp || Valid(c)
    ensures r.None? <==> t < c.startTimestamp
    ensures t == c.startTimestamp ==> r == Some(c.slotOffset + 1)
    ensures r.Some? ==> r.value > c.slotOffset
  {
    if t < c.startTimestamp then None
    else
      var elapsed := t - c.startTimestamp;
      var slots := elapsed / c.slotDuration + 1;
      Some(slots + c.slotOffset)
  }

  /** The slot `TimeToSlot` gives for `t` has a window that holds `t`. */
  lemma TimeToSlotInWindow(c: SlotCalculator, t: nat)
    requires Valid(c) && t >= c.startTimestamp
    ensures (SlotWindowDefined(c, TimeToSlot(c, t).value); SlotWindow(c, TimeToSlot(c, t).value).Contains(t))
  {
    var elapsed := t - c.startTimestamp;
    SlotWindowDefined(c, TimeToSlot(c, t).value);
    DivModUnique(elapsed, c.slotDuration, elapsed / c.slotDuration, elapsed % c.slotDuration);
  }

  /** The remainder of the chain's start modulo the slot duration. */
  function SlotUtcOffset(c: SlotCalculator): (r: nat)
    requires Valid(c)
    ensures r < c.slotDuration && r <= c.startTimestamp
    ensures (c.startTimestamp - r) % c.slotDuration == 0
  {
    var q := c.startTimestamp / c.slotDuration;
    DivModUnique(c.startTimestamp - c.startTimestamp % c.slotDuration, c.slotDuration, q, 0);
    c.startTimestamp % c.slotDuration
  }

  /**
   * How many seconds `t` lies into its slot. There is no result for
   * `t < startTimestamp % slotDuration`, the first slot boundary at or after
   * time 0; from the chain's start on, it is the time since the start modulo
   * the duration.
   */
  function PointWithinSlot(c: SlotCalculator, t: nat): (r: Option<nat>)
    requires Valid(c)
    ensures r.None? <==> t < c.startTimestamp % c.slotDuration
    ensures r.Some? ==> r.value < c.slotDuration
    ensures t >= c.startTimestamp ==> r == Some((t - c.startTimestamp) % c.slotDuration)
  {
    var utc := SlotUtcOffset(c);
    if t < utc then None
    else
      var q := (c.startTimestamp - utc) / c.slotDuration;
      DivModUnique(c.startTimestamp - utc, c.slotDuration, q, 0);
      ModShift(t - c.startTimestamp, q, c.slotDuration);
      Some((t - utc) % c.slotDuration)
  }

  /** The point within slot `slot`, only when `t` lies in that slot. */
  function CheckedPointWithinSlot(c: SlotCalculator, slot: nat, t: nat): (r: Option<nat>)
    requires t < c.startTimestamp || Valid(c)
    ensures r.Some? <==> TimeToSlot(c, t) == Some(slot)
    ensures r.Some? ==> r == PointWithinSlot(c, t)
    ensures r.Some? ==> (SlotWindowDefined(c, slot); r.value == t - SlotWindow(c, slot).start)
  {
    var calculated := TimeToSlot(c, t);
    if calculated.None? || calculated.value != slot then None
    else
      SlotWindowDefined(c, slot);
      PointWithinSlotWindow(c, slot, t);
      PointWithinSlot(c, t)
  }

  /** The window of the slot containing `t`; none before the chain's start. */
  function SlotWindowForTimestamp(c: SlotCalculator, t: nat): (r: Option<Range>)
    requires t < c.startTimestamp || Valid(c)
    ensures r.None? <==> t < c.startTimestamp
    ensures r.Some? ==> r.value.Contains(t) && r.value.end == r.value.start + c.slotDuration
  {
    match TimeToSlot(c, t)
    case None => None
    case Some(slot) =>
      TimeToSlotInWindow(c, t);
      Some(SlotWindow(c, slot))
  }

  // ---------------------------------------------------------------------
  // Properties of the calculator.

  /**
   * Round trip: for every slot after `slotOffset`, the timestamps of its
   * window are exactly those that `TimeToSlot` maps to it.
   */
  lemma SlotWindowExact(c: SlotCalculator, n: nat, t: nat)
    requires Valid(c) && n > c.slotOffset
    ensures (SlotWindowDefined(c, n); SlotWindow(c, n).Contains(t) <==> TimeToSlot(c, t) == Some(n))
  {
    SlotWindowDefined(c, n);
    var w := SlotWindow(c, n);
    if TimeToSlot(c, t) == Some(n) {
      TimeToSlotInWindow(c, t);
    }
    if w.Contains(t) {
      var k := n - c.slotOffset - 1;
      assert w.start == k * c.slotDuration + c.startTimestamp;
      DivModUnique(t - c.startTimestamp, c.slotDuration, k, t - w.start);
    }
  }

  /** Consecutive windows touch: no gap and no overlap between slots. */
  lemma SlotWindowsAdjacent(c: SlotCalculator, n: nat)
    requires n >= c.slotOffset
    requires (n - c.slotOffset) * c.slotDuration + c.startTimestamp >= c.slotDuration
    ensures (SlotWindowDefined(c, n + 1); SlotWindow(c, n).end == SlotWindow(c, n + 1).start)
  {
    SlotWindowDefined(c, n + 1);
    assert (n + 1 - c.slotOffset) * c.slotDuration == (n - c.slotOffset) * c.slotDuration + c.slotDuration;
  }

  /** Integer division by a positive number is monotone. */
  lemma DivMonotone(x: nat, y: nat, d: int)
    requires d > 0 && x <= y
    ensures x / d <= y / d
  {
    if x / d > y / d {
      MulLeft(y / d + 1, x / d, d);
      assert false;
    }
  }

  /** The slot number never decreases as time goes on. */
  lemma TimeToSlotMonotone(c: SlotCalculator, t1: nat, t2: nat)
    requires Valid(c) && c.startTimestamp <= t1 <= t2
    ensures TimeToSlot(c, t1).value <= TimeToSlot(c, t2).value
  {
    DivMonotone(t1 - c.startTimestamp, t2 - c.startTimestamp, c.slotDuration);
  }

  /** Advancing by `k` slot durations advances the slot number by exactly `k`. */
  lemma TimeToSlotAdvance(c: SlotCalculator, t: nat, k: nat)
    requires Valid(c) && t >= c.startTimestamp
    ensures TimeToSlot(c, t + k * c.slotDuration) == Some(TimeToSlot(c, t).value + k)
  {
    var n := TimeToSlot(c, t).value;
    TimeToSlotInWindow(c, t);
    SlotWindowDefined(c, n + k);
    assert (n + k - c.slotOffset) * c.slotDuration == (n - c.slotOffset) * c.slotDuration + k * c.slotDuration;
    assert SlotWindow(c, n + k).start == SlotWindow(c, n).start + k * c.slotDuration;
    SlotWindowExact(c, n + k, t + k * c.slotDuration);
  }

  /**
   * Inside any slot window (also that of `slotOffset` itself) the point
   * within the slot is the time elapsed since the window's start.
   */
  lemma PointWithinSlotWindow(c: SlotCalculator, n: nat, t: nat)
    requires Valid(c) && n >= c.slotOffset
    requires (n - c.slotOffset) * c.slotDuration + c.startTimestamp >= c.slotDuration
    requires SlotWindow(c, n).Contains(t)
    ensures PointWithinSlot(c, t) == Some(t - SlotWindow(c, n).start)
  {
    var w := SlotWindow(c, n);
    var utc := SlotUtcOffset(c);
    var q := c.startTimestamp / c.slotDuration;
    DivModUnique(c.startTimestamp, c.slotDuration, q, utc);
    assert w.start - utc == (n - c.slotOffset - 1 + q) * c.slotDuration;
    DivModUnique(t - utc, c.slotDuration, n - c.slotOffset - 1 + q, t - w.start);
  }

  /** A slot's first second is point 0 and its last second is point `slotDuration - 1`. */
  lemma PointAtSlotEdges(c: SlotCalculator, n: nat)
    requires Valid(c) && n >= c.slotOffset
    requires (n - c.slotOffset) * c.slotDuration + c.startTimestamp >= c.slotDuration
    ensures PointWithinSlot(c, SlotWindow(c, n).start) == Some(0)
    ensures PointWithinSlot(c, SlotWindow(c, n).end - 1) == Some(c.slotDuration - 1)
  {
    var w := SlotWindow(c, n);
    PointWithinSlotWindow(c, n, w.start);
    PointWithinSlotWindow(c, n, w.end - 1);
  }

  /** From the chain's start on, the point within the slot is the offset into `SlotWindowForTimestamp`. */
  lemma PointIsOffsetIntoWindow(c: SlotCalculator, t: nat)
    requires Valid(c) && t >= c.startTimestamp
    ensures PointWithinSlot(c, t) == Some(t - SlotWindowForTimestamp(c, t).value.start)
  {
    var n := TimeToSlot(c, t).value;
    TimeToSlotInWindow(c, t);
    PointWithinSlotWindow(c, n, t);
  }

  /**
   * Between the first slot boundary after time 0 and the chain's start,
   * `PointWithinSlot` gives a point although `TimeToSlot` gives no slot.
   */
  lemma PointBeforeStart(c: SlotCalculator, t: nat)
    requires Valid(c) && c.startTimestamp % c.slotDuration <= t < c.startTimestamp
    ensures PointWithinSlot(c, t).Some? && TimeToSlot(c, t).None?
  {
  }

  // ---------------------------------------------------------------------
  // Concrete schedules.

  /** `new(0, 0, 2)`: two-second slots numbered from 1 at time zero. */
  lemma TwoSecondSlotBoundaries()
    ensures TimeToSlot(SlotCalculator(0, 0, 2), 0) == Some(1)
    ensures TimeToSlot(SlotCalculator(0, 0, 2), 1) == Some(1)
    ensures TimeToSlot(SlotCalculator(0, 0, 2), 2) == Some(2)
    ensures TimeToSlot(SlotCalculator(0, 0, 2), 3) == Some(2)
    ensures TimeToSlot(SlotCalculator(0, 0, 2), 4) == Some(3)
    ensures TimeToSlot(SlotCalculator(0, 0, 2), 5) == Some(3)
    ensures TimeToSlot(SlotCalculator(0, 0, 2), 6) == Some(4)
  {
    assert 0 / 2 == 0 && 1 / 2 == 0 && 2 / 2 == 1 && 3 / 2 == 1;
    assert 4 / 2 == 2 && 5 / 2 == 2 && 6 / 2 == 3;
  }

  /** `new(12, 0, 12)` and `new(12, 1, 12)`: nothing before 12, and slots change at multiples of 12. */
  lemma TwelveSecondSlotBoundaries()
    ensures var c := SlotCalculator(12, 0, 12);
      && TimeToSlot(c, 0).None? && TimeToSlot(c, 1).None? && TimeToSlot(c, 11).None?
      && TimeToSlot(c, 12) == Some(1) && TimeToSlot(c, 13) == Some(1) && TimeToSlot(c, 23) == Some(1)
      && TimeToSlot(c, 24) == Some(2) && TimeToSlot(c, 25) == Some(2) && TimeToSlot(c, 35) == Some(2)
      && TimeToSlot(c, 36) == Some(3)
    ensures var c := SlotCalculator(12, 1, 12);
      && TimeToSlot(c, 0).None? && TimeToSlot(c, 11).None?
      && TimeToSlot(c, 12) == Some(2) && TimeToSlot(c, 23) == Some(2)
      && TimeToSlot(c, 24) == Some(3) && TimeToSlot(c, 35) == Some(3)
  {
  }

  /** Holesky: timestamps on a boundary belong to the later slot. */
  lemma HoleskySchedule()
    ensures var c := Holesky();
      && TimeToSlot(c, c.startTimestamp - 1).None? && TimeToSlot(c, 17).None?
      && TimeToSlot(c, 1695902424) == Some(3) && TimeToSlot(c, 1695902425) == Some(3)
      && TimeToSlot(c, 1742931924) == Some(3919128) && TimeToSlot(c, 1742931925) == Some(3919128)
      && PointWithinSlot(c, 1695902424) == Some(0) && PointWithinSlot(c, 1695902425) == Some(1)
      && PointWithinSlot(c, 1695902435) == Some(11) && PointWithinSlot(c, 1695902436) == Some(0)
      && SlotWindow(c, 2) == Range(1695902412, 1695902424)
      && SlotWindow(c, 3) == Range(1695902424, 1695902436)
  {
  }

  /** Holesky: one second before the start is point 11, yet has no slot. */
  lemma HoleskyPointBeforeStart()
    ensures PointWithinSlot(Holesky(), Holesky().startTimestamp - 1) == Some(11)
    ensures TimeToSlot(Holesky(), Holesky().startTimestamp - 1).None?
  {
    var c := Holesky();
    assert SlotWindow(c, 2) == Range(1695902412, 1695902424);
    PointWithinSlotWindow(c, 2, c.startTimestamp - 1);
  }

  /** Mainnet: timestamps on a boundary belong to the later slot. */
  lemma MainnetSchedule()
    ensures var c := Mainnet();
      && TimeToSlot(c, c.startTimestamp - 1).None? && TimeToSlot(c, 17).None?
      && TimeToSlot(c, 1663224179) == Some(4700014) && TimeToSlot(c, 1663224180) == Some(4700014)
      && TimeToSlot(c, 1738863035) == Some(11003252)
      && TimeToSlot(c, 1738866239) == Some(11003519)
      && TimeToSlot(c, 1738866227) == Some(11003518)
      && PointWithinSlot(c, 1663224179) == Some(0) && PointWithinSlot(c, 1663224180) == Some(1)
      && PointWithinSlot(c, 1663224190) == Some(11) && PointWithinSlot(c, 1663224191) == Some(0)
      && SlotWindow(c, 4700013) == Range(1663224167, 1663224179)
      && SlotWindow(c, 4700014) == Range(1663224179, 1663224191)
  {
  }
}
