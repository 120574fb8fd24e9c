/**
 * The round-robin builder roster of `src/perms/builders.rs`.
 *
 * The builder whose turn it is at time `t` is the roster entry at the slot
 * number of `t` modulo the roster's length; a request is accepted only
 * inside the band `blockQueryStart..=blockQueryCutoff` of seconds into the
 * slot, and only from the builder whose turn it is.
 *
 * The source computes the slot and the point within the slot through
 * calculator methods that `src/utils/calc.rs` does not define; here they
 * are `TimeToSlot` and `PointWithinSlot` at a timestamp from the chain's
 * start on, and the calculator is a field of `Builders`. The current time
 * is a parameter `now` instead of a read of the clock.
 */
module Permissioning {
  import opened Wrappers
  import opened Calc
  import opened AuthzConfig

  /** `BuilderPermissionError`: why a builder may not act now. */
  datatype BuilderPermissionError = ActionAttemptTooEarly | ActionAttemptTooLate | NotPermissioned

  /** A builder, known by the subject claim of its token. */
  datatype Builder = Builder(sub: string)

  /** The roster, the window settings and the chain's slot calculator. */
  datatype Builders = Builders(builders: seq<Builder>, config: SlotAuthzConfig, calculator: SlotCalculator)

  // ---------------------------------------------------------------------
  // Parsing the roster from a comma-separated string.

  /** The number of commas in `s`. */
  function Commas(s: string): nat {
    if |s| == 0 then 0 else (if s[0] == ',' then 1 else 0) + Commas(s[1..])
  }

  /** The pieces joined with a comma between each two. */
  function Join(pieces: seq<string>): string
    requires |pieces| > 0
  {
    if |pieces| == 1 then pieces[0] else pieces[0] + "," + Join(pieces[1..])
  }

  /** `str::split(',')`: one piece more than there are commas, none holding a comma. */
  function Split(s: string): (r: seq<string>)
    ensures |r| == Commas(s) + 1
    ensures forall i :: 0 <= i < |r| ==> ',' !in r[i]
  {
    if |s| == 0 then [""]
    else
      var rest := Split(s[1..]);
      if s[0] == ',' then [""] + rest
      else [[s[0]] + rest[0]] + rest[1..]
  }

  /** Joining the pieces with commas gives back the string that was split. */
  lemma {:induction false} JoinSplit(s: string)
    ensures Join(Split(s)) == s
  {
    if |s| > 0 {
      var rest := Split(s[1..]);
      JoinSplit(s[1..]);
      if s[0] == ',' {
        assert Split(s) == [""] + rest;
        assert ([""] + rest)[1..] == rest;
      } else {
        var head := [s[0]] + rest[0];
        assert Split(s) == [head] + rest[1..];
        if |rest| == 1 {
          assert Join(Split(s)) == head;
        } else {
          assert ([head] + rest[1..])[1..] == rest[1..];
          assert Join(Split(s)) == head + "," + Join(rest[1..]);
          assert Join(rest) == rest[0] + "," + Join(rest[1..]);
        }
        assert s == [s[0]] + s[1..];
      }
    }
  }

  /** A string with no comma splits into itself. */
  lemma {:induction false} SplitNoComma(a: string)
    requires ',' !in a
    ensures Split(a) == [a]
  {
    if |a| > 0 {
      assert ',' !in a[1..];
      SplitNoComma(a[1..]);
      assert [a[0]] + a[1..] == a;
    }
  }

  /** Splitting a comma-free piece followed by a comma and the rest. */
  lemma {:induction false} SplitAfterPiece(a: string, b: string)
    requires ',' !in a
    ensures Split(a + "," + b) == [a] + Split(b)
  {
    if |a| == 0 {
      assert a + "," + b == [','] + b;
      assert ([','] + b)[1..] == b;
    } else {
      assert (a + "," + b)[1..] == a[1..] + "," + b;
      assert ',' !in a[1..];
      SplitAfterPiece(a[1..], b);
      assert [a[0]] + a[1..] == a;
    }
  }

  /** The other round trip: splitting comma-free pieces joined by commas gives the pieces. */
  lemma {:induction false} SplitJoin(pieces: seq<string>)
    requires |pieces| > 0
    requires forall i :: 0 <= i < |pieces| ==> ',' !in pieces[i]
    ensures Split(Join(pieces)) == pieces
  {
    if |pieces| == 1 {
      SplitNoComma(pieces[0]);
    } else {
      SplitJoin(pieces[1..]);
      SplitAfterPiece(pieces[0], Join(pieces[1..]));
      assert [pieces[0]] + pieces[1..] == pieces;
    }
  }

  /** The subject claims of a list of builders, in order. */
  function Subs(bs: seq<Builder>): seq<string> {
    seq(|bs|, i requires 0 <= i < |bs| => bs[i].sub)
  }

  /**
   * `split_builders`: one builder per comma-separated piece, untrimmed;
   * joining their subs with commas gives back the input.
   */
  function SplitBuilders(s: string): (r: seq<Builder>)
    ensures |r| == Commas(s) + 1
    ensures forall i :: 0 <= i < |r| ==> ',' !in r[i].sub
    ensures Join(Subs(r)) == s
    ensures Subs(r) == Split(s)
  {
    var pieces := Split(s);
    var r := seq(|pieces|, i requires 0 <= i < |pieces| => Builder(pieces[i]));
    assert Subs(r) == pieces;
    JoinSplit(s);
    r
  }

  // ---------------------------------------------------------------------
  // Whose turn it is.

  /** The roster is non-empty and the calculator can divide. */
  predicate Serviceable(b: Builders) {
    |b.builders| > 0 && Valid(b.calculator)
  }

  /** `Builders::index`: the slot number of `t` modulo the roster's length. */
  function Index(b: Builders, t: nat): (r: nat)
    requires Serviceable(b) && t >= b.calculator.startTimestamp
    ensures r < |b.builders|
  {
    TimeToSlot(b.calculator, t).value % |b.builders|
  }

  /** `Builders::builder_at`: the roster entry at a valid index. */
  function BuilderAt(b: Builders, index: nat): (r: Builder)
    requires index < |b.builders|
    ensures r in b.builders
  {
    b.builders[index]
  }

  /** `Builders::builder_at_timestamp`: the roster entry whose turn it is at `t`. */
  function BuilderAtTimestamp(b: Builders, t: nat): (r: Builder)
    requires Serviceable(b) && t >= b.calculator.startTimestamp
    ensures r in b.builders
  {
    BuilderAt(b, Index(b, t))
  }

  /** The index does not change while time stays inside one slot window. */
  lemma IndexConstantWithinSlot(b: Builders, t1: nat, t2: nat)
    requires Serviceable(b) && t1 >= b.calculator.startTimestamp
    requires SlotWindowForTimestamp(b.calculator, t1).value.Contains(t2)
    ensures t2 >= b.calculator.startTimestamp && Index(b, t2) == Index(b, t1)
  {
    var n := TimeToSlot(b.calculator, t1).value;
    TimeToSlotInWindow(b.calculator, t1);
    SlotWindowExact(b.calculator, n, t2);
  }

  /** One slot later the turn passes to the next roster entry, wrapping around. */
  lemma IndexNextSlot(b: Builders, t: nat)
    requires Serviceable(b) && t >= b.calculator.startTimestamp
    ensures Index(b, t + b.calculator.slotDuration) == (Index(b, t) + 1) % |b.builders|
  {
    var n, len := TimeToSlot(b.calculator, t).value, |b.builders|;
    TimeToSlotAdvance(b.calculator, t, 1);
    ModShift(n % len + 1, n / len, len);
    assert n + 1 == n % len + 1 + (n / len) * len;
  }

  /** After as many slots as there are builders, the turn is back where it was. */
  lemma IndexPeriodic(b: Builders, t: nat)
    requires Serviceable(b) && t >= b.calculator.startTimestamp
    ensures Index(b, t + |b.builders| * b.calculator.slotDuration) == Index(b, t)
  {
    var n, len := TimeToSlot(b.calculator, t).value, |b.builders|;
    TimeToSlotAdvance(b.calculator, t, len);
    ModShift(n, 1, len);
  }

  /** Every roster entry gets its turn within the next `|builders|` slots. */
  lemma RosterTurnWithinPeriod(b: Builders, t: nat, j: nat) returns (m: nat)
    requires Serviceable(b) && t >= b.calculator.startTimestamp && j < |b.builders|
    ensures m < |b.builders| && Index(b, t + m * b.calculator.slotDuration) == j
  {
    var n, len := TimeToSlot(b.calculator, t).value, |b.builders|;
    var i := n % len;
    m := (j - i) % len;
    TimeToSlotAdvance(b.calculator, t, m);
    var p := (j - i) / len;
    assert n == (n / len) * len + i;
    assert n + m == (n / len - p) * len + j;
    DivModUnique(n + m, len, n / len - p, j);
  }

  /** Two different shifts by less than `len` leave different remainders. */
  lemma ShiftedRemaindersDistinct(n: nat, m1: nat, m2: nat, len: nat)
    requires len > 0 && m1 < m2 < len
    ensures (n + m1) % len != (n + m2) % len
  {
    var q, r, d := (n + m1) / len, (n + m1) % len, m2 - m1;
    assert n + m2 == q * len + r + d;
    if r + d < len {
      DivModUnique(n + m2, len, q, r + d);
    } else {
      DivModUnique(n + m2, len, q + 1, r + d - len);
    }
  }

  /** ... and only once: distinct slots among `|builders|` consecutive ones have distinct turns. */
  lemma IndexDistinctWithinPeriod(b: Builders, t: nat, m1: nat, m2: nat)
    requires Serviceable(b) && t >= b.calculator.startTimestamp
    requires m1 < |b.builders| && m2 < |b.builders| && m1 != m2
    ensures Index(b, t + m1 * b.calculator.slotDuration) != Index(b, t + m2 * b.calculator.slotDuration)
  {
    var n := TimeToSlot(b.calculator, t).value;
    TimeToSlotAdvance(b.calculator, t, m1);
    TimeToSlotAdvance(b.calculator, t, m2);
    if m1 < m2 {
      ShiftedRemaindersDistinct(n, m1, m2, |b.builders|);
    } else {
      ShiftedRemaindersDistinct(n, m2, m1, |b.builders|);
    }
  }

  // ---------------------------------------------------------------------
  // The permission check.

  /**
   * `check_query_bounds` at time `now`: too early before `blockQueryStart`,
   * too late after `blockQueryCutoff`, accepted in between, both bounds
   * included.
   */
  function CheckQueryBounds(b: Builders, now: nat): (r: Result<(), BuilderPermissionError>)
    requires Valid(b.calculator) && PointWithinSlot(b.calculator, now).Some?
    ensures var point := PointWithinSlot(b.calculator, now).value;
      && (r == Err(ActionAttemptTooEarly) <==> point < b.config.BlockQueryStart())
      && (r == Err(ActionAttemptTooLate) <==> b.config.BlockQueryStart() <= point && b.config.BlockQueryCutoff() < point)
      && (r.Ok? <==> b.config.BlockQueryStart() <= point <= b.config.BlockQueryCutoff())
  {
    var currentSlotTime := PointWithinSlot(b.calculator, now).value;
    if currentSlotTime < b.config.BlockQueryStart() then Err(ActionAttemptTooEarly)
    else if currentSlotTime > b.config.BlockQueryCutoff() then Err(ActionAttemptTooLate)
    else Ok(())
  }

  /**
   * `is_builder_permissioned(sub)` at time `now`: the timing errors come
   * first; inside the band the result is `Ok` exactly for the sub of the
   * builder whose turn it is (exact string equality) and `NotPermissioned`
   * for every other sub.
   */
  function IsBuilderPermissioned(b: Builders, sub: string, now: nat): (r: Result<(), BuilderPermissionError>)
    requires Serviceable(b) && now >= b.calculator.startTimestamp
    ensures var point := PointWithinSlot(b.calculator, now).value;
      var inBand := b.config.BlockQueryStart() <= point <= b.config.BlockQueryCutoff();
      && (r == Err(ActionAttemptTooEarly) <==> point < b.config.BlockQueryStart())
      && (r == Err(ActionAttemptTooLate) <==> b.config.BlockQueryStart() <= point && b.config.BlockQueryCutoff() < point)
      && (r == Err(NotPermissioned) <==> inBand && sub != BuilderAtTimestamp(b, now).sub)
      && (r.Ok? <==> inBand && sub == BuilderAtTimestamp(b, now).sub)
  {
    var bounds := CheckQueryBounds(b, now);
    if bounds.Err? then bounds
    else if sub != BuilderAtTimestamp(b, now).sub then Err(NotPermissioned)
    else Ok(())
  }

  /** At any instant at most one sub is permitted. */
  lemma PermissionExclusive(b: Builders, sub1: string, sub2: string, now: nat)
    requires Serviceable(b) && now >= b.calculator.startTimestamp
    requires IsBuilderPermissioned(b, sub1, now).Ok? && IsBuilderPermissioned(b, sub2, now).Ok?
    ensures sub1 == sub2
  {
  }

  /** With the start after the cutoff no instant is accepted, whoever asks. */
  lemma InvertedBandRejectsAll(b: Builders, sub: string, now: nat)
    requires Serviceable(b) && now >= b.calculator.startTimestamp
    requires b.config.BlockQueryStart() > b.config.BlockQueryCutoff()
    ensures IsBuilderPermissioned(b, sub, now).Err?
    ensures IsBuilderPermissioned(b, sub, now) != Err(NotPermissioned)
  {
  }

  /**
   * With distinct subs and more than one builder, the builder permitted in
   * one slot is not permitted in the next.
   */
  lemma NoConsecutiveTurns(b: Builders, sub: string, now: nat)
    requires Serviceable(b) && now >= b.calculator.startTimestamp && |b.builders| > 1
    requires forall i, j :: 0 <= i < j < |b.builders| ==> b.builders[i].sub != b.builders[j].sub
    requires IsBuilderPermissioned(b, sub, now).Ok?
    ensures IsBuilderPermissioned(b, sub, now + b.calculator.slotDuration).Err?
  {
    var later := now + b.calculator.slotDuration;
    var n := TimeToSlot(b.calculator, now).value;
    TimeToSlotAdvance(b.calculator, now, 1);
    ShiftedRemaindersDistinct(n, 0, 1, |b.builders|);
    var i, i' := Index(b, now), Index(b, later);
    assert i != i';
    assert sub == b.builders[i].sub;
    assert BuilderAtTimestamp(b, later) == b.builders[i'];
    if i < i' {
      assert b.builders[i].sub != b.builders[i'].sub;
    } else {
      assert b.builders[i'].sub != b.builders[i].sub;
    }
  }

  // ---------------------------------------------------------------------
  // Concrete rosters.

  /** The roster string "0,1,2,3,4,5" gives six builders "0" to "5" in order. */
  lemma SixBuilderRoster()
    ensures Subs(SplitBuilders("0,1,2,3,4,5")) == ["0", "1", "2", "3", "4", "5"]
  {
    var pieces := ["0", "1", "2", "3", "4", "5"];
    assert Join(pieces[5..]) == "5";
    assert Join(pieces[4..]) == "4,5";
    assert Join(pieces[3..]) == "3,4,5";
    assert Join(pieces[2..]) == "2,3,4,5";
    assert Join(pieces[1..]) == "1,2,3,4,5";
    assert Join(pieces) == "0,1,2,3,4,5";
    SplitJoin(pieces);
  }

  /** An empty roster string gives one builder with an empty sub. */
  lemma EmptyRosterString()
    ensures SplitBuilders("") == [Builder("")]
  {
  }

  /** Roster a, b, c on 12-second slots from time 12: slot 7 (time 84) is "b"'s turn. */
  lemma ThreeBuilderTurns()
    ensures var b := Builders([Builder("a"), Builder("b"), Builder("c")], New(0, 11, 1), SlotCalculator(12, 0, 12));
      && TimeToSlot(b.calculator, 84) == Some(7)
      && Index(b, 84) == 1
      && BuilderAtTimestamp(b, 84) == Builder("b")
  {
  }

  /** The band 1..=11 or 1..=10 inside a 12-second slot, for the builder whose turn it is. */
  lemma BandEdges()
    ensures var b := Builders([Builder("a")], New(0, 11, 1), SlotCalculator(12, 0, 12));
      && IsBuilderPermissioned(b, "a", 24) == Err(ActionAttemptTooEarly)
      && IsBuilderPermissioned(b, "a", 25) == Ok(())
      && IsBuilderPermissioned(b, "a", 35) == Ok(())
      && IsBuilderPermissioned(b, "z", 35) == Err(NotPermissioned)
    ensures var b := Builders([Builder("a")], New(0, 10, 1), SlotCalculator(12, 0, 12));
      IsBuilderPermissioned(b, "a", 35) == Err(ActionAttemptTooLate)
  {
  }
}
