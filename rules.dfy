/** Character rules and attacks: `Character`, `Attack` and the ability
    modifiers they use. Neither a character nor an attack changes after
    it is built, so both are values here. */
module Rules {
  import opened Prelude
  import opened Dice

  /** The six ability scores an attack can scale with. */
  datatype Ability = Str | Dex | Con | Int | Wis | Cha

  /** The attribute name under which a character stores each score. */
  function AbilityName(a: Ability): (r: string)
    ensures Some(r) in Scores
  {
    match a
    case Str => "str"
    case Dex => "dex"
    case Con => "con"
    case Int => "int"
    case Wis => "wis"
    case Cha => "cha"
  }

  /** The bases an attack may be built with: an ability name, or none. */
  const Scores: seq<Option<string>> :=
    [Some("str"), Some("dex"), Some("con"), Some("int"), Some("wis"), Some("cha"), None]

  /** A score for every ability: the character's attributes looked up by name. */
  type AbilityScores = m: map<Ability, int> | Str in m && Dex in m && Con in m && Int in m && Wis in m && Cha in m
    witness map[Str := 10, Dex := 10, Con := 10, Int := 10, Wis := 10, Cha := 10]

  /** A score map holds every ability, whatever ability is asked for. */
  lemma EveryAbilityScored(m: AbilityScores, a: Ability)
    ensures a in m
  {
  }

  datatype Character = Character(lvl: int, scores: AbilityScores, profBonus: int)

  datatype Attack = Attack(kind: Option<Ability>, quantity: int, dice: int)

  /** Python's `int(a / b)` for a positive divisor: the quotient rounded
      toward zero, unlike Dafny's `/`, which rounds toward minus infinity
      for a negative dividend. */
  function TruncDiv(a: int, b: int): (q: int)
    requires 0 < b
    ensures 0 <= a ==> 0 <= a - b * q < b
    ensures a < 0 ==> -b < a - b * q <= 0
  {
    if 0 <= a then a / b else -((-a) / b)
  }

  /** `Character.score_bonus`: the ability modifier of a score. */
  function ScoreBonus(score: int): (r: int)
    ensures 0 <= score || score % 2 == 0 ==> r == score / 2 - 5
    ensures score < 0 && score % 2 == 1 ==> r == score / 2 - 4
  {
    TruncDiv(score, 2) - 5
  }

  /** `Character.proficiency_bonus`: 2, plus 1 for every four levels after the first. */
  function ProficiencyBonus(level: int): (r: int)
    ensures 1 <= level ==> r == (level - 1) / 4 + 2
    ensures 2 <= r <==> -2 <= level
  {
    TruncDiv(level - 1, 4) + 2
  }

  /** A higher score never gives a lower modifier. */
  lemma ScoreBonusMonotone(a: int, b: int)
    requires a <= b
    ensures ScoreBonus(a) <= ScoreBonus(b)
  {
  }

  /** The modifier is non-negative exactly from a score of 10 up. */
  lemma ScoreBonusSign(score: int)
    ensures 0 <= ScoreBonus(score) <==> 10 <= score
    ensures ScoreBonus(10) == 0 && ScoreBonus(19) == 4 && ScoreBonus(7) == -2
    ensures ScoreBonus(-1) == -5
  {
  }

  /** A higher level never gives a lower proficiency bonus. */
  lemma ProficiencyBonusMonotone(a: int, b: int)
    requires a <= b
    ensures ProficiencyBonus(a) <= ProficiencyBonus(b)
  {
  }

  /** Levels 1 to 4 give 2, 5 to 8 give 3, and so on. */
  lemma ProficiencyBonusTable()
    ensures forall l :: 1 <= l <= 4 ==> ProficiencyBonus(l) == 2
    ensures forall l :: 5 <= l <= 8 ==> ProficiencyBonus(l) == 3
    ensures ProficiencyBonus(17) == 6 && ProficiencyBonus(20) == 6
  {
  }

  /** `Character(lvl, str, dex, con, int, wis, cha)` with its defaults: the
      scores are stored unchanged and the proficiency bonus follows the level. */
  function NewCharacter(lvl: int := 1, strength: int := 10, dexterity: int := 10,
                        constitution: int := 10, intelligence: int := 10,
                        wisdom: int := 10, charisma: int := 10): (c: Character)
    ensures c.lvl == lvl && c.profBonus == ProficiencyBonus(lvl)
    ensures c.scores[Str] == strength && c.scores[Dex] == dexterity
    ensures c.scores[Con] == constitution && c.scores[Int] == intelligence
    ensures c.scores[Wis] == wisdom && c.scores[Cha] == charisma
  {
    Character(lvl,
      map[Str := strength, Dex := dexterity, Con := constitution,
          Int := intelligence, Wis := wisdom, Cha := charisma],
      ProficiencyBonus(lvl))
  }

  /** The base an attack reports as its `type`. */
  function KindName(kind: Option<Ability>): Option<string> {
    match kind
    case None => None
    case Some(a) => Some(AbilityName(a))
  }

  function ParseBase(base: Option<string>): (kind: Option<Ability>)
    requires base in Scores
    ensures KindName(kind) == base
  {
    if base == Some("str") then Some(Str)
    else if base == Some("dex") then Some(Dex)
    else if base == Some("con") then Some(Con)
    else if base == Some("int") then Some(Int)
    else if base == Some("wis") then Some(Wis)
    else if base == Some("cha") then Some(Cha)
    else None
  }

  /** `Attack(quantity, dice, base)`: refuses a base outside `Scores`,
      otherwise stores all three unchanged. */
  function NewAttack(quantity: int, dice: int, base: Option<string> := None): (r: Result<Attack>)
    ensures r.Ok? <==> base in Scores
    ensures r.Err? ==> r.error == UnknownAttackKind
    ensures r.Ok? ==> KindName(r.value.kind) == base
    ensures r.Ok? ==> r.value.quantity == quantity && r.value.dice == dice
  {
    if base !in Scores then Err(UnknownAttackKind)
    else Ok(Attack(ParseBase(base), quantity, dice))
  }

  /** Every attack kind can be built, and is built from its own name only. */
  lemma KindNamesDistinct(k1: Option<Ability>, k2: Option<Ability>)
    ensures KindName(k1) in Scores
    ensures KindName(k1) == KindName(k2) ==> k1 == k2
  {
  }

  /** `Attack.execute`: the attack's dice roll. */
  method Execute(atk: Attack, die: DieSource) returns (r: Result<int>)
    requires Fair(die.oracle)
    modifies die
    ensures r == RollOutcome(die.oracle, old(die.drawn), atk.quantity, atk.dice)
    ensures die.drawn == old(die.drawn) + DrawsUsed(atk.quantity, atk.dice)
  {
    r := Roll(die, atk.quantity, atk.dice);
  }

  /** The modifier `Character.attack` adds: the bonus of the attack's
      ability score, or 0 for an attack without one. */
  function AbilityModifier(c: Character, kind: Option<Ability>): int {
    match kind
    case None => 0
    case Some(a) => EveryAbilityScored(c.scores, a); ScoreBonus(c.scores[a])
  }

  /** What `c.attack(atk)` returns when the generator stands at draw `start`. */
  function AttackOutcome(c: Character, atk: Attack, oracle: Oracle, start: nat): Result<int> {
    var roll := RollOutcome(oracle, start, atk.quantity, atk.dice);
    if roll.Err? then roll else Ok(roll.value + AbilityModifier(c, atk.kind))
  }

  /** `Character.attack`: the attack's roll plus the modifier of its ability. */
  method CharacterAttack(c: Character, atk: Attack, die: DieSource) returns (r: Result<int>)
    requires Fair(die.oracle)
    modifies die
    ensures r == AttackOutcome(c, atk, die.oracle, old(die.drawn))
    ensures die.drawn == old(die.drawn) + DrawsUsed(atk.quantity, atk.dice)
  {
    var modifier := 0;
    if atk.kind.Some? {
      EveryAbilityScored(c.scores, atk.kind.value);
      var score := c.scores[atk.kind.value];
      modifier := ScoreBonus(score);
    }
    var roll := Execute(atk, die);
    if roll.Err? {
      return roll;
    }
    r := Ok(roll.value + modifier);
  }

  /** On a real die an attack always lands, and its damage lies between the
      lowest and the highest roll, shifted by the ability modifier. */
  lemma AttackOutcomeBounds(c: Character, atk: Attack, oracle: Oracle, start: nat)
    requires Fair(oracle) && 1 <= atk.dice
    ensures AttackOutcome(c, atk, oracle, start).Ok?
    ensures var m := AbilityModifier(c, atk.kind);
            var v := AttackOutcome(c, atk, oracle, start).value;
            RangeLength(atk.quantity) + m <= v <= RangeLength(atk.quantity) * atk.dice + m
  {
    RollSumBounds(oracle, start, atk.quantity, atk.dice);
  }
}
