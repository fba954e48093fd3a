/** The retry delay of the notification worker, in Go's int64 arithmetic. */
module Backoff {
  import opened Common

  const LONGEST := 30 * MINUTE
  const LAST_SAFE_ATTEMPT := 28

  // What the delay is meant to be: 30 s doubled per attempt, at most 30 minutes, over exact integers.
  function IdealBase(attempt: int): (base: int)
    ensures 30 * SECOND <= base <= LONGEST
  {
    if attempt <= 0 then 30 * SECOND else Min(2 * IdealBase(attempt - 1), LONGEST)
  }

  lemma {:induction false} IdealBaseIsClampedPower(attempt: nat)
    ensures IdealBase(attempt) == Min(Pow2(attempt) * (30 * SECOND), LONGEST)
  {
    if attempt > 0 {
      IdealBaseIsClampedPower(attempt - 1);
    }
  }

  /** The random number below `n` that `draw` stands for; a draw out of range stands for the largest. */
  function Below(draw: nat, n: int): (j: int)
    requires n > 0
    ensures 0 <= j < n && (draw < n ==> j == draw)
  {
    if draw < n then draw else n - 1
  }

  /** `None` is the panic of `rand.Int64N` on an argument that is not positive. */
  function Spec(attempt: int, draw: nat): (wait: Option<int>)
  {
    if attempt > LAST_SAFE_ATTEMPT then None
    else Some(IdealBase(attempt) + Below(draw, IdealBase(attempt) / 4))
  }

  method Backoff(attempt: int, draw: nat) returns (wait: Option<int>)
    ensures wait == Spec(attempt, draw)
  {
    var a := attempt;
    if a < 0 {
      a := 0;
    }
    if a > 30 {
      a := 30;
    }
    var base := Wrap64(Wrap64(Wrap64(Pow2(a)) * 30) * SECOND);
    if base > LONGEST {
      base := LONGEST;
    }
    if a <= LAST_SAFE_ATTEMPT {
      PowerGrows(a, LAST_SAFE_ATTEMPT);
      PowersOfTwo();
      IdealBaseIsClampedPower(a);
      assert base == IdealBase(a);
      assert a == attempt || (attempt < 0 && IdealBase(attempt) == IdealBase(0));
    } else {
      OverflowIsNegative(a);
    }
    var n := TruncDiv(base, 4);
    if n <= 0 {
      return None;
    }
    return Some(base + Below(draw, n));
  }

  lemma {:induction false} PowerGrows(a: nat, b: nat)
    requires a <= b
    ensures Pow2(a) <= Pow2(b)
    decreases b
  {
    if a < b {
      PowerGrows(a, b - 1);
    }
  }

  lemma PowersOfTwo()
    ensures Pow2(28) == 0x1000_0000
    ensures Pow2(29) == 0x2000_0000
    ensures Pow2(30) == 0x4000_0000
  {
    assert Pow2(4) == 16;
    assert Pow2(8) == 256;
    assert Pow2(12) == 0x1000;
    assert Pow2(16) == 0x1_0000;
    assert Pow2(20) == 0x10_0000;
    assert Pow2(24) == 0x100_0000;
    assert Pow2(28) == 0x1000_0000;
  }

  // The clamp at 30 keeps the shift in range, but the product still leaves int64 from 29 on.
  lemma OverflowIsNegative(a: nat)
    requires LAST_SAFE_ATTEMPT < a <= 30
    ensures Wrap64(Wrap64(Wrap64(Pow2(a)) * 30) * SECOND) < 0
  {
    PowersOfTwo();
    if a == 29 {
    } else {
      assert a == 30;
    }
  }

  // Exactly the delays from the ideal one up to a quarter more can be drawn, and from attempt 29 on none at all.
  lemma DelayRange(attempt: int, wait: int)
    ensures (exists draw: nat :: Spec(attempt, draw) == Some(wait)) <==>
            attempt <= LAST_SAFE_ATTEMPT && InRange(IdealBase(attempt), wait)
  {
    var base := IdealBase(attempt);
    if attempt <= LAST_SAFE_ATTEMPT && InRange(base, wait) {
      DrawGives(attempt, wait);
    } else {
      forall draw: nat ensures Spec(attempt, draw) != Some(wait) {
        DrawStays(attempt, draw);
      }
    }
  }

  predicate InRange(base: int, wait: int) {
    base <= wait < base + base / 4 && 2 * wait < 75 * MINUTE
  }

  lemma DrawStays(attempt: int, draw: nat)
    ensures Spec(attempt, draw).Some? <==> attempt <= LAST_SAFE_ATTEMPT
    ensures Spec(attempt, draw).Some? ==> InRange(IdealBase(attempt), Spec(attempt, draw).value)
  {
  }

  lemma DrawGives(attempt: int, wait: int)
    requires attempt <= LAST_SAFE_ATTEMPT && InRange(IdealBase(attempt), wait)
    ensures Spec(attempt, wait - IdealBase(attempt)) == Some(wait)
  {
  }

  // The delay grows with the attempt whatever the jitter exactly up to attempt 5; from 6 on both sit at the cap.
  lemma {:induction false} GrowsWhateverTheJitter(i: int)
    requires 0 <= i < LAST_SAFE_ATTEMPT
    ensures (forall d: nat, e: nat {:trigger Spec(i, d), Spec(i + 1, e)} ::
               Spec(i, d).value < Spec(i + 1, e).value) <==> i <= 5
  {
    FirstBases();
    if i <= 5 {
      assert 5 * IdealBase(i) <= 4 * IdealBase(i + 1);
    } else {
      CappedFromSix(i);
      CappedFromSix(i + 1);
      assert Spec(i, 0).value == Spec(i + 1, 0).value;
    }
  }

  lemma FirstBases()
    ensures IdealBase(0) == 30 * SECOND
    ensures IdealBase(1) == 60 * SECOND
    ensures IdealBase(2) == 120 * SECOND
    ensures IdealBase(3) == 240 * SECOND
    ensures IdealBase(4) == 480 * SECOND
    ensures IdealBase(5) == 960 * SECOND
    ensures IdealBase(6) == 1800 * SECOND
  {
    assert IdealBase(2) == 120 * SECOND;
    assert IdealBase(4) == 480 * SECOND;
  }

  lemma {:induction false} CappedFromSix(i: int)
    requires i >= 6
    ensures IdealBase(i) == LONGEST
    decreases i
  {
    FirstBases();
    if i > 6 {
      CappedFromSix(i - 1);
    }
  }

  // The delays that must have passed between the first claim of a row and its claim number `m + 1`.
  function MinDelay(m: int): (d: int)
    ensures d >= 0
  {
    if m <= 0 then 0 else MinDelay(m - 1) + IdealBase(m)
  }

  lemma FiveDelays()
    ensures MinDelay(5) == 1860 * SECOND
  {
    FirstBases();
    assert MinDelay(2) == 180 * SECOND;
    assert MinDelay(4) == 900 * SECOND;
  }
}
