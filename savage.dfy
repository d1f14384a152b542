/** The savage attacker rule from `main`: once per turn, the damage of one
    of the two attacks may be rolled again, keeping the larger total. The
    first attack is rerolled when it does not exceed a precomputed average.

    `attack(k)` is the damage the `k`-th call of the character's attack
    returns during the turn. */
module Savage {
  import opened Prelude

  /** One turn: each attack's first damage, whether it was rerolled, and
      the damage kept. */
  datatype Turn = Turn(first1: int, rerolled1: bool, att1: int,
                       first2: int, rerolled2: bool, att2: int)
  {
    /** The damage of the turn. */
    function Damage(): int { att1 + att2 }

    /** How many rerolls the turn spent. */
    function Rerolls(): nat { (if rerolled1 then 1 else 0) + (if rerolled2 then 1 else 0) }

    /** An attack keeps its first damage unless rerolled, and a reroll never lowers it. */
    predicate KeepsLarger() {
      && att1 >= first1 && att2 >= first2
      && (!rerolled1 ==> att1 == first1)
      && (!rerolled2 ==> att2 == first2)
    }
  }

  /** The turn exactly as `savage_attacker` plays it: `reroll` starts at 0
      and attack 2 rerolls whenever `reroll` is still 0 afterwards. */
  function SavageTurnAsWritten(attack: nat -> int, avg: real): (t: Turn)
    ensures t.KeepsLarger()
    ensures t.first1 == attack(0)
    ensures t.rerolled1 <==> attack(0) as real <= avg
    ensures t.rerolled1 ==> t.att1 == Max(attack(0), attack(1)) && t.first2 == attack(2)
    ensures !t.rerolled1 ==> t.first2 == attack(1) && t.rerolled2
    ensures t.rerolled2 <==> !t.rerolled1 || attack(1) == 0
    ensures t.rerolled2 ==> t.att2 == Max(t.first2, attack(if t.rerolled1 then 3 else 2))
  {
    var first1 := attack(0);
    if first1 as real <= avg then
      var reroll := attack(1);
      var first2 := attack(2);
      if reroll == 0 then Turn(first1, true, Max(first1, reroll), first2, true, Max(first2, attack(3)))
      else Turn(first1, true, Max(first1, reroll), first2, false, first2)
    else
      Turn(first1, false, first1, attack(1), true, Max(attack(1), attack(2)))
  }

  /** `savage_attacker()`: the damage of the turn and how many attack calls it made. */
  method SavageAttacker(attack: nat -> int, avg: real) returns (total: int, calls: nat)
    ensures total == SavageTurnAsWritten(attack, avg).Damage()
    ensures calls == 2 + SavageTurnAsWritten(attack, avg).Rerolls()
  {
    calls := 0;
    var reroll := 0;

    var att1 := attack(calls);
    calls := calls + 1;
    if att1 as real <= avg {
      reroll := attack(calls);
      calls := calls + 1;
      att1 := if reroll > att1 then reroll else att1;
    }

    var att2 := attack(calls);
    calls := calls + 1;
    if reroll == 0 {
      reroll := attack(calls);
      calls := calls + 1;
      att2 := if reroll > att2 then reroll else att2;
    }

    total := att1 + att2;
  }

  /** As written, a turn spends both rerolls exactly when attack 1 is
      rerolled and its reroll deals 0 damage. */
  lemma AsWrittenRerollsTwice(attack: nat -> int, avg: real)
    ensures SavageTurnAsWritten(attack, avg).Rerolls() == 2 <==>
            attack(0) as real <= avg && attack(1) == 0
    ensures 1 <= SavageTurnAsWritten(attack, avg).Rerolls()
  {
  }

  /** A concrete turn that breaks "once per turn": every attack deals 0
      against a threshold of 10, and both attacks are rerolled. The attack
      that `main` passes to the rule always deals at least 6, so there the
      defect stays latent; an attack that can deal 0 (a strength-based 2d6
      for a character with strength 7, modifier -2) reaches it. */
  lemma DoubleRerollWitness()
    ensures var t := SavageTurnAsWritten(_ => 0, 10.0);
            t.rerolled1 && t.rerolled2 && t.Rerolls() == 2
  {
  }

  /** The rule as intended: a flag, not the reroll's value, records that
      the turn's reroll is spent. */
  function SavageTurn(attack: nat -> int, avg: real): (t: Turn)
    ensures t.KeepsLarger()
    ensures t.first1 == attack(0)
    ensures t.rerolled1 <==> attack(0) as real <= avg
    ensures t.rerolled1 ==> t.att1 == Max(attack(0), attack(1)) && t.first2 == attack(2) && !t.rerolled2
    ensures !t.rerolled1 ==> t.first2 == attack(1) && t.rerolled2 && t.att2 == Max(attack(1), attack(2))
  {
    var first1 := attack(0);
    if first1 as real <= avg then
      Turn(first1, true, Max(first1, attack(1)), attack(2), false, attack(2))
    else
      Turn(first1, false, first1, attack(1), true, Max(attack(1), attack(2)))
  }

  /** The intended rule spends exactly one reroll per turn, on attack 2
      exactly when attack 1 keeps its first damage, and never does worse
      than the turn without the rule. */
  lemma SavageTurnRerollsOnce(attack: nat -> int, avg: real)
    ensures SavageTurn(attack, avg).Rerolls() == 1
    ensures SavageTurn(attack, avg).rerolled2 <==> !SavageTurn(attack, avg).rerolled1
    ensures SavageTurn(attack, avg).Damage() >= SavageTurn(attack, avg).first1 + SavageTurn(attack, avg).first2
  {
  }

  /** The two versions differ only on the turns with a zero-damage reroll. */
  lemma SavageTurnAgreesOtherwise(attack: nat -> int, avg: real)
    requires !(attack(0) as real <= avg && attack(1) == 0)
    ensures SavageTurnAsWritten(attack, avg) == SavageTurn(attack, avg)
  {
  }
}
