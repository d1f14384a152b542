/** Dice arithmetic: `roll_die`, `roll` and `avg_roll`.

    The process-wide random generator is replaced by a scripted oracle:
    `oracle(n, size)` is the value of the `n`-th draw of the run when that
    draw is made on a die with `size` faces. The only promise kept from
    `random.randint(1, size)` is that such a draw lies in `[1, size]`. */
module Dice {
  import opened Prelude

  type Oracle = (nat, int) -> int

  /** The oracle keeps `randint`'s promise for every draw on a real die. */
  ghost predicate Fair(oracle: Oracle) {
    forall n: nat, size: int :: 1 <= size ==> 1 <= oracle(n, size) <= size
  }

  /** The random generator: a fixed script and how far it has been read. */
  class DieSource {
    const oracle: Oracle
    var drawn: nat

    constructor (oracle: Oracle)
      ensures this.oracle == oracle && drawn == 0
    {
      this.oracle := oracle;
      drawn := 0;
    }

    /** `roll_die(size)`: one draw of `randint(1, size)`; an empty range
        raises before anything is drawn. */
    method RollDie(size: int) returns (r: Result<int>)
      requires Fair(oracle)
      modifies this
      ensures size < 1 ==> r == Err(EmptyRange) && drawn == old(drawn)
      ensures 1 <= size ==> r == Ok(oracle(old(drawn), size)) && drawn == old(drawn) + 1
      ensures r.Ok? ==> 1 <= r.value <= size
    {
      if size < 1 {
        return Err(EmptyRange);
      }
      r := Ok(oracle(drawn, size));
      drawn := drawn + 1;
    }
  }

  /** The sum of the `quantity` draws on a `dice`-faced die that start at
      draw number `start`. */
  function RollSum(oracle: Oracle, start: nat, quantity: int, dice: int): int
    decreases quantity
  {
    if quantity <= 0 then 0
    else RollSum(oracle, start, quantity - 1, dice) + oracle(start + quantity - 1, dice)
  }

  /** What `roll(quantity, dice)` returns when the generator stands at draw `start`. */
  function RollOutcome(oracle: Oracle, start: nat, quantity: int, dice: int): Result<int> {
    if 0 < quantity && dice < 1 then Err(EmptyRange)
    else Ok(RollSum(oracle, start, quantity, dice))
  }

  /** How many draws `roll(quantity, dice)` consumes. */
  function DrawsUsed(quantity: int, dice: int): nat {
    if 0 < quantity && dice < 1 then 0 else RangeLength(quantity)
  }

  /** `roll(quantity, dice)`: add up `quantity` draws, one per loop iteration. */
  method Roll(die: DieSource, quantity: int, dice: int) returns (r: Result<int>)
    requires Fair(die.oracle)
    modifies die
    ensures r == RollOutcome(die.oracle, old(die.drawn), quantity, dice)
    ensures die.drawn == old(die.drawn) + DrawsUsed(quantity, dice)
  {
    var sum := 0;
    var times := 0;
    while times < quantity
      invariant 0 <= times <= RangeLength(quantity)
      invariant dice < 1 ==> times == 0
      invariant die.drawn == old(die.drawn) + times
      invariant sum == RollSum(die.oracle, old(die.drawn), times, dice)
    {
      var face := die.RollDie(dice);
      if face.Err? {
        return face;
      }
      sum := sum + face.value;
      times := times + 1;
    }
    return Ok(sum);
  }

  /** With a fair oracle, `quantity` draws on a `dice`-faced die add up to
      between `quantity` and `quantity * dice`; no draws add up to 0. */
  lemma {:induction false} RollSumBounds(oracle: Oracle, start: nat, quantity: int, dice: int)
    requires Fair(oracle) && 1 <= dice
    ensures RangeLength(quantity) <= RollSum(oracle, start, quantity, dice) <= RangeLength(quantity) * dice
    ensures quantity <= 0 ==> RollSum(oracle, start, quantity, dice) == 0
  {
    if 0 < quantity {
      RollSumBounds(oracle, start, quantity - 1, dice);
      var d := oracle(start + quantity - 1, dice);
      assert 1 <= d <= dice;
      assert RangeLength(quantity) * dice == RangeLength(quantity - 1) * dice + dice;
    }
  }

  /** `avg_roll(quantity, dice)`, the mean of `roll`, over the reals: the
      midpoint of `quantity` and `quantity * dice`. */
  function AvgRoll(quantity: int, dice: int): (r: real)
    ensures 2.0 * r == (quantity + quantity * dice) as real
  {
    quantity as real * ((1 + dice) as real / 2.0)
  }

  /** The sum of the faces `1 + 2 + ... + dice` of one die. */
  function FaceSum(dice: int): int
    decreases dice
  {
    if dice <= 0 then 0 else FaceSum(dice - 1) + dice
  }

  lemma {:induction false} FaceSumClosedForm(dice: nat)
    ensures 2 * FaceSum(dice) == dice * (dice + 1)
  {
    if 0 < dice {
      FaceSumClosedForm(dice - 1);
    }
  }

  /** `avg_roll` is the expected total: `quantity` times the mean of the
      `dice` equally likely faces. */
  lemma {:induction false} AvgRollIsMeanOfFaces(quantity: int, dice: int)
    requires 1 <= dice
    ensures AvgRoll(quantity, dice) * dice as real == quantity as real * FaceSum(dice) as real
  {
    FaceSumClosedForm(dice);
    assert 2.0 * FaceSum(dice) as real == (dice * (dice + 1)) as real;
  }
}
